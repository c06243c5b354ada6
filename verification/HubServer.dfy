/** The objects of apps/api/internal/realtime/hub.go, proved against the machine of `HubMachine`. */
module HubServer {
  import opened Sequences
  import opened HubMachine

  class Client {
    var channels: Option<set<Channel>>
    var closed: bool
    var queue: seq<Message>
    var sendClosed: bool
    ghost var addressed: seq<Message>
    ghost var taken: seq<Message>

    ghost function View(): Conn
      reads this
    {
      Conn(channels, closed, queue, sendClosed, false, addressed, taken)
    }

    constructor ()
      ensures View() == NEW_CONN
    {
      channels, closed, queue, sendClosed := Some({}), false, [], false;
      addressed, taken := [], [];
    }

    // The two operations of a Go channel that must not meet a closed one.
    method Push(m: Message) returns (ok: bool)
      requires !sendClosed
      modifies this`queue
      ensures View() == RawSend(old(View()), m)
      ensures ok <==> |old(queue)| < 16
      ensures queue == old(queue) + if ok then [m] else []
    {
      ok := |queue| < SEND_BUFFER;
      if ok {
        queue := queue + [m];
      }
    }

    method Shut()
      requires !sendClosed
      modifies this`sendClosed
      ensures View() == RawClose(old(View()))
    {
      sendClosed := true;
    }

    method Send(m: Message) returns (ok: bool)
      requires closed == sendClosed
      modifies this`queue
      ensures View() == TrySend(old(View()), m)
      ensures ok <==> !closed && |old(queue)| < 16
      ensures queue == old(queue) + if ok then [m] else []
    {
      if closed {
        return false;
      }
      ok := Push(m);
    }

    method Close()
      requires closed == sendClosed
      modifies this`closed, this`sendClosed
      ensures View() == Closed(old(View()))
    {
      if !closed {
        closed := true;
        Shut();
      }
    }
  }

  function Got(delivered: bool, m: Message): seq<Message> {
    if delivered then [m] else []
  }

  lemma QueuesAfter<C>(s: Machine<C>, targets: set<C>, m: Message, conns: map<C, Conn>)
    requires conns == VisitAll(BeginVisit(s, m, targets).conns, targets, m)
    ensures forall c :: c in s.conns ==>
              c in conns && conns[c].queue == s.conns[c].queue + Got(c in targets && Accepts(s.conns[c]), m)
  {
  }

  lemma RemoveAllStep<C>(index: Index<C>, c: C, chs: set<Channel>, ch: Channel)
    requires ch !in chs && forall d :: d in index ==> index[d] != {}
    ensures IndexRemoveAll(index, c, chs + {ch}) == IndexRemove(IndexRemoveAll(index, c, chs), c, ch)
  {
  }

  class Hub {
    var clients: set<Client>
    var channels: map<Channel, set<Client>>
    ghost var known: set<Client>

    ghost function Conns(): map<Client, Conn>
      reads this, known
    {
      map c | c in known :: c.View()
    }

    ghost function View(): Machine<Client>
      reads this, known
    {
      Machine(clients, channels, Conns(), None)
    }

    // What the code itself relies on. The full invariant `Inv(View())` follows from the equations below by
    // `HubMachine.StepKeepsInv`.
    ghost predicate Valid()
      reads this, known
    {
      && clients <= known
      && (forall ch :: ch in channels ==> {} != channels[ch] <= known)
      && (forall c :: c in known ==> c.closed == c.sendClosed)
    }

    constructor ()
      ensures View() == Start() && Valid()
    {
      clients, channels, known := {}, map[], {};
    }

    method Connect() returns (c: Client)
      requires Valid()
      modifies this`known
      ensures fresh(c) && known == old(known) + {c}
      ensures View() == Step(old(View()), NewClient(c)) && Valid()
    {
      c := new Client();
      known := known + {c};
      assert Conns() == old(Conns())[c := NEW_CONN];
    }

    method Register(c: Client)
      requires Valid() && c in known
      modifies this`clients
      ensures Valid() && known == old(known)
      ensures View() == Step(old(View()), Op.Register(c))
    {
      clients := clients + {c};
    }

    method Enter(c: Client, ch: Channel)
      requires Valid() && c in known
      modifies this`channels
      ensures Valid()
      ensures channels == IndexAdd(old(channels), c, ch)
    {
      if ch !in channels {
        channels := channels[ch := {}];
      }
      channels := channels[ch := channels[ch] + {c}];
    }

    method Leave(c: Client, ch: Channel)
      requires Valid()
      modifies this`channels
      ensures Valid()
      ensures channels == IndexRemove(old(channels), c, ch)
    {
      if ch in channels {
        var rest := channels[ch] - {c};
        channels := if rest == {} then channels - {ch} else channels[ch := rest];
      }
    }

    method Unregister(c: Client)
      requires Valid() && c in known
      modifies this`clients, this`channels, c
      ensures Valid() && known == old(known)
      ensures View() == Step(old(View()), Op.Unregister(c))
    {
      clients := clients - {c};
      var todo: set<Channel> := if c.channels.Some? then c.channels.value else {};
      ghost var all := todo;
      while todo != {}
        invariant todo <= all
        invariant Valid() && unchanged(c) && clients == old(clients) - {c}
        invariant channels == IndexRemoveAll(old(channels), c, all - todo)
        decreases todo
      {
        var ch :| ch in todo;
        RemoveAllStep(old(channels), c, all - todo, ch);
        Leave(c, ch);
        assert all - (todo - {ch}) == all - todo + {ch};
        todo := todo - {ch};
      }
      assert all - todo == ChannelsOf(old(c.View()));
      c.channels := None;
      c.Close();
      assert Conns() == old(Conns())[c := c.View()];
    }

    method Subscribe(c: Client, ch: Channel)
      requires Valid() && c in known
      modifies this`channels, c`channels
      ensures Valid() && known == old(known)
      ensures View() == Step(old(View()), Op.Subscribe(c, ch))
    {
      Enter(c, ch);
      if c.channels.None? {
        c.channels := Some({});
      }
      c.channels := Some(c.channels.value + {ch});
      assert Conns() == old(Conns())[c := c.View()];
    }

    method Unsubscribe(c: Client, ch: Channel)
      requires Valid() && c in known
      modifies this`channels, c`channels
      ensures Valid() && known == old(known)
      ensures View() == Step(old(View()), Op.Unsubscribe(c, ch))
    {
      Leave(c, ch);
      if c.channels.Some? {
        c.channels := Some(c.channels.value - {ch});
      }
      assert Conns() == old(Conns())[c := c.View()];
    }

    ghost method Address(targets: set<Client>, m: Message)
      requires Valid() && targets <= known
      modifies targets`addressed
      ensures Valid()
      ensures Conns() == BeginVisit(old(View()), m, targets).conns
    {
      forall c | c in targets {
        c.addressed := c.addressed + [m];
      }
      assert Conns() == BeginVisit(old(View()), m, targets).conns;
    }

    // Broadcast and BroadcastAll differ only in whom they visit.
    method Offer(targets: set<Client>, m: Message)
      requires Valid() && targets <= known
      modifies targets`queue
      ensures Valid()
      ensures Conns() == VisitAll(old(Conns()), targets, m)
    {
      ghost var done := VisitAll(Conns(), targets, m);
      var todo := targets;
      while todo != {}
        invariant todo <= targets
        invariant forall c :: c in targets && c !in todo ==> c.View() == done[c]
        invariant forall c :: c in todo ==> c.View() == old(c.View())
        decreases todo
      {
        var c :| c in todo;
        var _ := c.Send(m);
        todo := todo - {c};
      }
      assert Conns() == done;
    }

    method Visit(targets: set<Client>, m: Message)
      requires Valid() && targets <= known
      modifies targets`addressed, targets`queue
      ensures Valid()
      ensures Conns() == VisitAll(BeginVisit(old(View()), m, targets).conns, targets, m)
      ensures forall c :: c in known ==> c.queue == old(c.queue) + Got(c in targets && old(Accepts(c.View())), m)
    {
      Address(targets, m);
      Offer(targets, m);
      QueuesAfter(old(View()), targets, m, Conns());
      assert forall c :: c in known ==> Conns()[c].queue == c.queue && old(Conns())[c].queue == old(c.queue);
    }

    method Broadcast(ch: Channel, event: string)
      requires Valid()
      modifies known
      ensures Valid()
      ensures var targets := if ch in channels then channels[ch] else {};
              Conns() == VisitAll(Step(old(View()), Op.Broadcast(ch, event)).conns, targets, Change(ch, event))
      ensures forall c :: c in known ==>
                c.queue == old(c.queue) + Got(ch in channels && c in channels[ch] && !c.closed && |old(c.queue)| < 16,
                                              Change(ch, event))
    {
      Visit(if ch in channels then channels[ch] else {}, Change(ch, event));
    }

    method BroadcastAll(event: string)
      requires Valid()
      modifies known
      ensures Valid()
      ensures Conns() == VisitAll(Step(old(View()), Op.BroadcastAll(event)).conns, clients, Change("", event))
      ensures forall c :: c in known ==>
                c.queue == old(c.queue) + Got(c in clients && !c.closed && |old(c.queue)| < 16, Change("", event))
    {
      Visit(clients, Change("", event));
    }

    // ----- the read loop of one connection

    method SubscribeAll(c: Client, chs: seq<Channel>)
      requires Valid() && c in known
      modifies this`channels, c`channels
      ensures Valid() && known == old(known)
      ensures View() == SubscribeEach(old(View()), c, chs)
    {
      for i := 0 to |chs|
        invariant Valid() && known == old(known)
        invariant View() == SubscribeEach(old(View()), c, chs[..i])
      {
        SubscribeOneMore(old(View()), c, chs, i);
        Subscribe(c, chs[i]);
      }
      assert chs[..|chs|] == chs;
    }

    method UnsubscribeAll(c: Client, chs: seq<Channel>)
      requires Valid() && c in known
      modifies this`channels, c`channels
      ensures Valid() && known == old(known)
      ensures View() == UnsubscribeEach(old(View()), c, chs)
    {
      for i := 0 to |chs|
        invariant Valid() && known == old(known)
        invariant View() == UnsubscribeEach(old(View()), c, chs[..i])
      {
        UnsubscribeOneMore(old(View()), c, chs, i);
        Unsubscribe(c, chs[i]);
      }
      assert chs[..|chs|] == chs;
    }

    method Serve(c: Client, r: Request)
      requires Valid() && c in known
      modifies this`channels, c`channels, c`queue
      ensures Valid() && known == old(known)
      ensures View() == Answered(old(View()), c, r)
      ensures ChannelsOf(View().conns[c]) == Served(old(ChannelsOf(View().conns[c])), r)
      ensures c.queue == old(c.queue) + if r.Ping? && !c.closed && |old(c.queue)| < 16 then [Pong] else []
    {
      match r
      case Subscribe(chs) =>
        SubscribeEachServes(View(), c, Allowed(chs));
        var allowed := FilterAllowed(chs);
        SubscribeAll(c, allowed);
      case Unsubscribe(chs) =>
        UnsubscribeEachServes(View(), c, chs);
        UnsubscribeAll(c, chs);
      case Ping =>
        var _ := c.Send(Pong);
        assert Conns() == old(Conns())[c := c.View()];
    }
  }

  // ----- requests

  const ALLOWED_CHANNELS: set<Channel> := {"fleet_aircraft", "route_assignments", "users", "loans", "bank_transactions"}

  datatype Request = Subscribe(channels: seq<Channel>) | Unsubscribe(channels: seq<Channel>) | Ping

  // What one request does to the hub: subscriptions pass the allowlist, unsubscriptions do not.
  function Answered<C(==)>(s: Machine<C>, c: C, r: Request): Machine<C>
    requires s.visiting.None? && c in s.conns
  {
    match r
    case Subscribe(chs) => SubscribeEach(s, c, Allowed(chs))
    case Unsubscribe(chs) => UnsubscribeEach(s, c, chs)
    case Ping => Step(s, Reply(c))
  }

  function Allowed(channels: seq<Channel>): seq<Channel> {
    Filter(channels, IsAllowed)
  }

  predicate IsAllowed(ch: Channel) {
    ch in ALLOWED_CHANNELS
  }

  // What one request does to the set of channels its client is subscribed to.
  function Served(channels: set<Channel>, r: Request): set<Channel> {
    match r
    case Subscribe(chs) => channels + Elements(chs) * ALLOWED_CHANNELS
    case Unsubscribe(chs) => channels - Elements(chs)
    case Ping => channels
  }

  method FilterAllowed(channels: seq<Channel>) returns (out: seq<Channel>)
    ensures out == Allowed(channels)
    ensures Elements(out) == Elements(channels) * ALLOWED_CHANNELS
    ensures Elements(out)
            == Elements(channels) * {"fleet_aircraft", "route_assignments", "users", "loans", "bank_transactions"}
  {
    out := [];
    for i := 0 to |channels|
      invariant out == Allowed(channels[..i])
    {
      assert channels[..i + 1][..i] == channels[..i];
      if channels[i] in ALLOWED_CHANNELS {
        out := out + [channels[i]];
      }
    }
    assert channels[..|channels|] == channels;
  }
}
