/**
 The WebSocket hub (apps/api/internal/realtime/hub.go) and the requests its read loop serves
 (apps/api/internal/handler/ws.go).

 `Machine` states are what two mutexes leave observable: hub operations exclude one another, a broadcast
 holds the hub's mutex while it visits clients one at a time, and only a client's own mutex guards `TrySend`
 and `Close`, so these can happen between two visits.
 */
module HubMachine {
  import opened Sequences

  type Channel = string

  datatype Message = Change(channel: Channel, event: string) | Pong

  const SEND_BUFFER := 16

  // `channels` is nil-able in the source. `closed` is the flag the code consults; `sendClosed` is the state of
  // the Go channel itself, and `panicked` records a send on, or a second close of, a closed Go channel, or a
  // write to a nil map. `addressed` and `taken` are histories: the changes broadcast to the client while it
  // was subscribed, and what its write pump has received.
  datatype Conn = Conn(
    channels: Option<set<Channel>>, closed: bool, queue: seq<Message>, sendClosed: bool, panicked: bool,
    addressed: seq<Message>, taken: seq<Message>)

  const NEW_CONN := Conn(Some({}), false, [], false, false, [], [])

  function ChannelsOf(c: Conn): set<Channel> {
    if c.channels.Some? then c.channels.value else {}
  }

  // ----- one client

  function RawSend(c: Conn, m: Message): Conn {
    if c.sendClosed then c.(panicked := true)
    else if |c.queue| < SEND_BUFFER then c.(queue := c.queue + [m])
    else c
  }

  function RawClose(c: Conn): Conn {
    if c.sendClosed then c.(panicked := true) else c.(sendClosed := true)
  }

  function RawInsert(c: Conn, ch: Channel): Conn {
    if c.channels.None? then c.(panicked := true) else c.(channels := Some(c.channels.value + {ch}))
  }

  function TrySend(c: Conn, m: Message): Conn {
    if c.closed then c else RawSend(c, m)
  }

  function Closed(c: Conn): Conn {
    if c.closed then c else RawClose(c.(closed := true))
  }

  function Take(c: Conn): Conn {
    if c.queue == [] then c else c.(queue := c.queue[1..], taken := c.taken + [c.queue[0]])
  }

  // ----- the index

  type Index<C(==)> = map<Channel, set<C>>

  function IndexAdd<C(==)>(index: Index<C>, c: C, ch: Channel): Index<C> {
    index[ch := (if ch in index then index[ch] else {}) + {c}]
  }

  // Removes c from a channel and drops the channel when nobody is left in it.
  function IndexRemove<C(==)>(index: Index<C>, c: C, ch: Channel): Index<C> {
    if ch !in index then index
    else if index[ch] - {c} == {} then index - {ch}
    else index[ch := index[ch] - {c}]
  }

  function IndexRemoveAll<C(==)>(index: Index<C>, c: C, chs: set<Channel>): Index<C> {
    map ch | ch in index && (ch in chs ==> index[ch] - {c} != {}) :: if ch in chs then index[ch] - {c} else index[ch]
  }

  // ----- the machine

  datatype Visit<C> = Visit(message: Message, pending: set<C>)

  // `visiting` is the broadcast in progress, which holds the hub's mutex.
  datatype Machine<C(==)> = Machine(
    clients: set<C>, channels: Index<C>, conns: map<C, Conn>, visiting: Option<Visit<C>>)

  datatype Op<C> =
    | NewClient(c: C)
    | Register(c: C)
    | Unregister(c: C)
    | Subscribe(c: C, ch: Channel)
    | Unsubscribe(c: C, ch: Channel)
    | Broadcast(ch: Channel, event: string)
    | BroadcastAll(event: string)
    | VisitNext(c: C)
    | Reply(c: C)         // TrySend of a pong, outside the hub's mutex
    | Close(c: C)         // the read pump ends
    | TakeNext(c: C)      // the write pump receives

  predicate Enabled<C(==)>(s: Machine<C>, op: Op<C>) {
    match op
    case NewClient(c) => c !in s.conns
    case Register(c) => s.visiting.None? && c in s.conns
    case Unregister(c) => s.visiting.None? && c in s.conns
    case Subscribe(c, _) => s.visiting.None? && c in s.conns
    case Unsubscribe(c, _) => s.visiting.None? && c in s.conns
    case Broadcast(_, _) => s.visiting.None?
    case BroadcastAll(_) => s.visiting.None?
    case VisitNext(c) => s.visiting.Some? && c in s.visiting.value.pending && c in s.conns
    case Reply(c) => c in s.conns
    case Close(c) => c in s.conns
    case TakeNext(c) => c in s.conns
  }

  function BeginVisit<C(==)>(s: Machine<C>, m: Message, targets: set<C>): Machine<C> {
    if targets == {} then s
    else s.(conns := map c | c in s.conns ::
              if c in targets then s.conns[c].(addressed := s.conns[c].addressed + [m]) else s.conns[c],
            visiting := Some(Visit(m, targets)))
  }

  function EndVisit<C(==)>(v: Visit<C>, c: C): Option<Visit<C>> {
    if v.pending == {c} then None else Some(v.(pending := v.pending - {c}))
  }

  function Step<C(==)>(s: Machine<C>, op: Op<C>): Machine<C>
    requires Enabled(s, op)
  {
    match op
    case NewClient(c) => s.(conns := s.conns[c := NEW_CONN])
    case Register(c) => s.(clients := s.clients + {c})
    case Unregister(c) =>
      s.(clients := s.clients - {c},
         channels := IndexRemoveAll(s.channels, c, ChannelsOf(s.conns[c])),
         conns := s.conns[c := Closed(s.conns[c].(channels := None))])
    case Subscribe(c, ch) =>
      var conn := if s.conns[c].channels.None? then s.conns[c].(channels := Some({})) else s.conns[c];
      s.(channels := IndexAdd(s.channels, c, ch), conns := s.conns[c := RawInsert(conn, ch)])
    case Unsubscribe(c, ch) =>
      var conn := s.conns[c];
      s.(channels := IndexRemove(s.channels, c, ch),
         conns := s.conns[c := if conn.channels.None? then conn
                               else conn.(channels := Some(conn.channels.value - {ch}))])
    case Broadcast(ch, event) => BeginVisit(s, Change(ch, event), if ch in s.channels then s.channels[ch] else {})
    case BroadcastAll(event) => BeginVisit(s, Change("", event), s.clients)
    case VisitNext(c) =>
      s.(conns := s.conns[c := TrySend(s.conns[c], s.visiting.value.message)],
         visiting := EndVisit(s.visiting.value, c))
    case Reply(c) => s.(conns := s.conns[c := TrySend(s.conns[c], Pong)])
    case Close(c) => s.(conns := s.conns[c := Closed(s.conns[c])])
    case TakeNext(c) => s.(conns := s.conns[c := Take(s.conns[c])])
  }

  // One request names several channels; they are taken one after another.
  function SubscribeEach<C(==)>(s: Machine<C>, c: C, chs: seq<Channel>): (r: Machine<C>)
    requires s.visiting.None? && c in s.conns
    ensures r.visiting.None? && r.conns.Keys == s.conns.Keys
    decreases chs
  {
    if chs == [] then s
    else Step(SubscribeEach(s, c, chs[..|chs| - 1]), Subscribe(c, chs[|chs| - 1]))
  }

  function UnsubscribeEach<C(==)>(s: Machine<C>, c: C, chs: seq<Channel>): (r: Machine<C>)
    requires s.visiting.None? && c in s.conns
    ensures r.visiting.None? && r.conns.Keys == s.conns.Keys
    decreases chs
  {
    if chs == [] then s
    else Step(UnsubscribeEach(s, c, chs[..|chs| - 1]), Unsubscribe(c, chs[|chs| - 1]))
  }

  lemma {:induction false} SubscribeEachServes<C>(s: Machine<C>, c: C, chs: seq<Channel>)
    requires s.visiting.None? && c in s.conns
    ensures ChannelsOf(SubscribeEach(s, c, chs).conns[c]) == ChannelsOf(s.conns[c]) + Elements(chs)
    decreases chs
  {
    if chs != [] {
      SubscribeEachServes(s, c, chs[..|chs| - 1]);
    }
  }

  lemma SubscribeOneMore<C>(s: Machine<C>, c: C, chs: seq<Channel>, i: nat)
    requires s.visiting.None? && c in s.conns && i < |chs|
    ensures SubscribeEach(s, c, chs[..i + 1]) == Step(SubscribeEach(s, c, chs[..i]), Subscribe(c, chs[i]))
  {
    assert chs[..i + 1][..i] == chs[..i];
  }

  lemma {:induction false} UnsubscribeEachServes<C>(s: Machine<C>, c: C, chs: seq<Channel>)
    requires s.visiting.None? && c in s.conns
    ensures ChannelsOf(UnsubscribeEach(s, c, chs).conns[c]) == ChannelsOf(s.conns[c]) - Elements(chs)
    decreases chs
  {
    if chs != [] {
      UnsubscribeEachServes(s, c, chs[..|chs| - 1]);
    }
  }

  lemma UnsubscribeOneMore<C>(s: Machine<C>, c: C, chs: seq<Channel>, i: nat)
    requires s.visiting.None? && c in s.conns && i < |chs|
    ensures UnsubscribeEach(s, c, chs[..i + 1]) == Step(UnsubscribeEach(s, c, chs[..i]), Unsubscribe(c, chs[i]))
  {
    assert chs[..i + 1][..i] == chs[..i];
  }

  ghost predicate IsRun<C>(s: Machine<C>, ops: seq<Op<C>>)
    decreases ops
  {
    ops != [] ==> Enabled(s, ops[0]) && IsRun(Step(s, ops[0]), ops[1..])
  }

  function After<C(==)>(s: Machine<C>, ops: seq<Op<C>>): Machine<C>
    requires IsRun(s, ops)
    decreases ops
  {
    if ops == [] then s else After(Step(s, ops[0]), ops[1..])
  }

  function Start<C(==)>(): Machine<C> {
    Machine({}, map[], map[], None)
  }

  // ----- invariants

  // A client is in a channel's set exactly when the channel is in the client's set; no empty set is kept.
  ghost predicate TwoWay<C>(index: Index<C>, conns: map<C, Conn>) {
    && (forall ch, c :: ch in index && c in index[ch] ==> c in conns && ch in ChannelsOf(conns[c]))
    && (forall c, ch :: c in conns && ch in ChannelsOf(conns[c]) ==> ch in index && c in index[ch])
    && (forall ch :: ch in index ==> index[ch] != {})
  }

  predicate IsChange(m: Message) {
    m.Change?
  }

  function Changes(s: seq<Message>): seq<Message> {
    Filter(s, IsChange)
  }

  // Everything the client has received or will receive.
  function Delivered(c: Conn): seq<Message> {
    c.taken + c.queue
  }

  predicate ChannelSound(c: Conn) {
    !c.panicked && c.closed == c.sendClosed && |c.queue| <= SEND_BUFFER
  }

  // In order, and nothing the client was not addressed; a message still to be visited is not delivered yet.
  ghost predicate InOrder(c: Conn, awaiting: Option<Message>) {
    match awaiting
    case None => IsSubsequence(Changes(Delivered(c)), c.addressed)
    case Some(m) =>
      && IsChange(m)
      && c.addressed != []
      && c.addressed[|c.addressed| - 1] == m
      && IsSubsequence(Changes(Delivered(c)), c.addressed[..|c.addressed| - 1])
  }

  ghost function Awaiting<C>(s: Machine<C>, c: C): Option<Message> {
    if s.visiting.Some? && c in s.visiting.value.pending then Some(s.visiting.value.message) else None
  }

  ghost predicate Inv<C>(s: Machine<C>) {
    && TwoWay(s.channels, s.conns)
    && s.clients <= s.conns.Keys
    && (s.visiting.Some? ==> IsChange(s.visiting.value.message) && {} < s.visiting.value.pending <= s.conns.Keys)
    && ConnsSound(s)
  }

  ghost predicate ConnsSound<C>(s: Machine<C>) {
    forall c :: c in s.conns ==> ChannelSound(s.conns[c]) && InOrder(s.conns[c], Awaiting(s, c))
  }

  lemma ChangesOfAppend(s: seq<Message>, m: Message)
    ensures Changes(s + [m]) == if IsChange(m) then Changes(s) + [m] else Changes(s)
  {
  }

  lemma TrySendDelivers(c: Conn, m: Message)
    requires ChannelSound(c)
    ensures ChannelSound(TrySend(c, m))
    ensures TrySend(c, m).addressed == c.addressed && TrySend(c, m).channels == c.channels
    ensures Delivered(TrySend(c, m)) == Delivered(c) || Delivered(TrySend(c, m)) == Delivered(c) + [m]
    ensures c.closed ==> TrySend(c, m) == c
  {
  }

  // It has not been closed and its queue has room.
  predicate Accepts(c: Conn) {
    !c.closed && |c.queue| < 16
  }

  /** A client loses a message only when it is closed or sixteen are waiting; otherwise the message is queued behind
      them. */
  lemma TrySendQueues(c: Conn, m: Message)
    requires ChannelSound(c)
    ensures TrySend(c, m) == if Accepts(c) then c.(queue := c.queue + [m]) else c
  {
  }

  lemma TakeDeliversTheSame(c: Conn)
    ensures Delivered(Take(c)) == Delivered(c)
    ensures c.queue != [] ==> Take(c).taken == c.taken + [c.queue[0]]
    ensures Take(c).addressed == c.addressed
  {
  }

  lemma SendKeepsOrder(c: Conn, m: Message, awaiting: Option<Message>)
    requires ChannelSound(c) && InOrder(c, awaiting)
    requires IsChange(m) ==> awaiting == Some(m)
    ensures InOrder(TrySend(c, m), if IsChange(m) then None else awaiting)
  {
    TrySendDelivers(c, m);
    ChangesOfAppend(Delivered(c), m);
    if IsChange(m) {
      var before := c.addressed[..|c.addressed| - 1];
      SubsequenceOfExtension(Changes(Delivered(c)), before, m);
      assert before + [m] == c.addressed;
    }
  }

  lemma SameChannelsKeepTwoWay<C>(index: Index<C>, conns: map<C, Conn>, conns': map<C, Conn>)
    requires TwoWay(index, conns)
    requires forall c :: c in conns ==> c in conns' && ChannelsOf(conns'[c]) == ChannelsOf(conns[c])
    requires forall c :: c in conns' && c !in conns ==> ChannelsOf(conns'[c]) == {}
    ensures TwoWay(index, conns')
  {
  }

  lemma AddKeepsTwoWay<C>(index: Index<C>, conns: map<C, Conn>, c: C, ch: Channel, conn: Conn)
    requires TwoWay(index, conns) && c in conns
    requires ChannelsOf(conn) == ChannelsOf(conns[c]) + {ch}
    ensures TwoWay(IndexAdd(index, c, ch), conns[c := conn])
  {
  }

  lemma RemoveKeepsTwoWay<C>(index: Index<C>, conns: map<C, Conn>, c: C, chs: set<Channel>, conn: Conn)
    requires TwoWay(index, conns) && c in conns
    requires ChannelsOf(conn) == ChannelsOf(conns[c]) - chs
    ensures TwoWay(IndexRemoveAll(index, c, chs), conns[c := conn])
  {
    var index', conns' := IndexRemoveAll(index, c, chs), conns[c := conn];
    forall d, ch | d in conns' && ch in ChannelsOf(conns'[d])
      ensures ch in index' && d in index'[ch]
    {
      assert ch in ChannelsOf(conns[d]);
      assert d in index[ch];
      if ch in chs {
        assert d in index[ch] - {c};
      }
    }
  }

  lemma RemoveOneIsRemoveAll<C>(index: Index<C>, c: C, ch: Channel)
    requires forall d :: d in index ==> index[d] != {}
    ensures IndexRemove(index, c, ch) == IndexRemoveAll(index, c, {ch})
  {
  }

  predicate TouchesIndex<C>(op: Op<C>) {
    op.Subscribe? || op.Unsubscribe? || op.Unregister?
  }

  lemma OtherStepsKeepChannels<C>(s: Machine<C>, op: Op<C>)
    requires Enabled(s, op) && !TouchesIndex(op)
    ensures Step(s, op).channels == s.channels
    ensures forall c :: c in s.conns ==>
              c in Step(s, op).conns && ChannelsOf(Step(s, op).conns[c]) == ChannelsOf(s.conns[c])
    ensures forall c :: c in Step(s, op).conns && c !in s.conns ==> ChannelsOf(Step(s, op).conns[c]) == {}
  {
  }

  lemma StepKeepsTwoWay<C>(s: Machine<C>, op: Op<C>)
    requires Inv(s) && Enabled(s, op)
    ensures TwoWay(Step(s, op).channels, Step(s, op).conns)
  {
    var next := Step(s, op);
    match op
    case Subscribe(c, ch) => AddKeepsTwoWay(s.channels, s.conns, c, ch, next.conns[c]);
    case Unsubscribe(c, ch) =>
      RemoveOneIsRemoveAll(s.channels, c, ch);
      RemoveKeepsTwoWay(s.channels, s.conns, c, {ch}, next.conns[c]);
    case Unregister(c) =>
      assert ChannelsOf(next.conns[c]) == {};
      RemoveKeepsTwoWay(s.channels, s.conns, c, ChannelsOf(s.conns[c]), next.conns[c]);
    case _ =>
      OtherStepsKeepChannels(s, op);
      SameChannelsKeepTwoWay(s.channels, s.conns, next.conns);
  }

  lemma AddressingKeepsConns<C>(s: Machine<C>, m: Message, targets: set<C>)
    requires Inv(s) && s.visiting.None? && IsChange(m) && targets <= s.conns.Keys
    ensures ConnsSound(BeginVisit(s, m, targets))
  {
  }

  // What a step does to one client other than through the visit in progress.
  lemma UpdateKeepsConns<C>(s: Machine<C>, next: Machine<C>, c: C)
    requires ConnsSound(s) && c in next.conns && next.visiting == s.visiting
    requires next.conns == s.conns[c := next.conns[c]]
    requires ChannelSound(next.conns[c]) && InOrder(next.conns[c], Awaiting(s, c))
    ensures ConnsSound(next)
  {
  }

  lemma VisitKeepsConns<C>(s: Machine<C>, c: C)
    requires Inv(s) && Enabled(s, VisitNext(c))
    ensures ConnsSound(Step(s, VisitNext(c)))
  {
    var next := Step(s, VisitNext(c));
    TrySendDelivers(s.conns[c], s.visiting.value.message);
    SendKeepsOrder(s.conns[c], s.visiting.value.message, Awaiting(s, c));
    assert Awaiting(next, c) == None;
    forall d | d in s.conns && d != c
      ensures ChannelSound(next.conns[d]) && InOrder(next.conns[d], Awaiting(next, d))
    {
      assert next.conns[d] == s.conns[d] && Awaiting(next, d) == Awaiting(s, d);
    }
  }

  lemma ReplyKeepsConns<C>(s: Machine<C>, c: C)
    requires Inv(s) && Enabled(s, Reply(c))
    ensures ConnsSound(Step(s, Reply(c)))
  {
    TrySendDelivers(s.conns[c], Pong);
    SendKeepsOrder(s.conns[c], Pong, Awaiting(s, c));
    UpdateKeepsConns(s, Step(s, Reply(c)), c);
  }

  lemma StepKeepsConns<C>(s: Machine<C>, op: Op<C>)
    requires Inv(s) && Enabled(s, op)
    ensures ConnsSound(Step(s, op))
  {
    var next := Step(s, op);
    match op
    case Register(c) =>
    case Broadcast(ch, event) =>
      AddressingKeepsConns(s, Change(ch, event), if ch in s.channels then s.channels[ch] else {});
    case BroadcastAll(event) => AddressingKeepsConns(s, Change("", event), s.clients);
    case VisitNext(c) => VisitKeepsConns(s, c);
    case Reply(c) => ReplyKeepsConns(s, c);
    case TakeNext(c) =>
      TakeDeliversTheSame(s.conns[c]);
      UpdateKeepsConns(s, next, c);
    case NewClient(c) =>
      UpdateKeepsConns(s, next, c);
    case _ =>
      UpdateKeepsConns(s, next, op.c);
  }

  lemma StepKeepsInv<C>(s: Machine<C>, op: Op<C>)
    requires Inv(s) && Enabled(s, op)
    ensures Inv(Step(s, op))
  {
    StepKeepsTwoWay(s, op);
    StepKeepsConns(s, op);
  }

  lemma {:induction false} RunKeepsInv<C>(s: Machine<C>, ops: seq<Op<C>>)
    requires Inv(s) && IsRun(s, ops)
    ensures Inv(After(s, ops))
    decreases ops
  {
    if ops != [] {
      StepKeepsInv(s, ops[0]);
      RunKeepsInv(Step(s, ops[0]), ops[1..]);
    }
  }

  /** In every reachable state the index is two-way and holds no empty channel, no Go channel was closed twice
      or sent to after closing and no nil map was written, and the changes a client gets are, in order, among
      those broadcast to it. */
  lemma Reachable<C>(ops: seq<Op<C>>)
    requires IsRun(Start<C>(), ops)
    ensures var s := After(Start<C>(), ops);
            && TwoWay(s.channels, s.conns)
            && (forall c :: c in s.conns ==>
                  && !s.conns[c].panicked
                  && (Awaiting(s, c).None? ==> IsSubsequence(Changes(s.conns[c].taken), s.conns[c].addressed)))
  {
    RunKeepsInv(Start<C>(), ops);
    var s := After(Start<C>(), ops);
    forall c | c in s.conns && Awaiting(s, c).None?
      ensures IsSubsequence(Changes(s.conns[c].taken), s.conns[c].addressed)
    {
      PrefixIsSubsequence(s.conns[c].taken, s.conns[c].queue, s.conns[c].addressed);
    }
  }

  lemma {:induction false} PrefixIsSubsequence(taken: seq<Message>, queue: seq<Message>, addressed: seq<Message>)
    requires IsSubsequence(Changes(taken + queue), addressed)
    ensures IsSubsequence(Changes(taken), addressed)
    decreases queue
  {
    if queue == [] {
      assert taken + queue == taken;
    } else {
      var shorter := queue[..|queue| - 1];
      assert taken + queue == taken + shorter + [queue[|queue| - 1]];
      ChangesOfAppend(taken + shorter, queue[|queue| - 1]);
      if IsChange(queue[|queue| - 1]) {
        DropLast(Changes(taken + shorter), queue[|queue| - 1], addressed);
      }
      PrefixIsSubsequence(taken, shorter, addressed);
    }
  }

  lemma {:induction false} DropLast<T>(a: seq<T>, x: T, b: seq<T>)
    requires IsSubsequence(a + [x], b)
    ensures IsSubsequence(a, b)
    decreases b
  {
    if a != [] {
      assert (a + [x])[..|a|] == a;
      var shorter, last := b[..|b| - 1], b[|b| - 1];
      assert shorter + [last] == b;
      if IsSubsequence(a + [x], shorter) {
        DropLast(a, x, shorter);
      }
      SubsequenceOfExtension(a, shorter, last);
    }
  }

  lemma StepLeavesClosedClient<C>(s: Machine<C>, op: Op<C>, c: C)
    requires Enabled(s, op) && c in s.conns && s.conns[c].closed
    ensures c in Step(s, op).conns && Step(s, op).conns[c].closed
    ensures Delivered(Step(s, op).conns[c]) == Delivered(s.conns[c])
  {
  }

  /** Once a client is closed nothing more reaches it, whatever is broadcast later and even if it is
      subscribed again: its write pump can only drain what was already queued. */
  lemma {:induction false} NothingReachesAClosedClient<C>(s: Machine<C>, ops: seq<Op<C>>, c: C)
    requires IsRun(s, ops)
    requires c in s.conns && s.conns[c].closed
    ensures c in After(s, ops).conns && After(s, ops).conns[c].closed
    ensures Delivered(After(s, ops).conns[c]) == Delivered(s.conns[c])
    decreases ops
  {
    if ops != [] {
      StepLeavesClosedClient(s, ops[0], c);
      NothingReachesAClosedClient(Step(s, ops[0]), ops[1..], c);
    }
  }

  predicate Indexed<C(==)>(s: Machine<C>, c: C) {
    exists ch :: ch in s.channels && c in s.channels[ch]
  }

  lemma OnlySubscribeIndexes<C>(s: Machine<C>, op: Op<C>, c: C)
    requires Enabled(s, op) && !Indexed(s, c)
    requires !(op.Subscribe? && op.c == c)
    ensures !Indexed(Step(s, op), c)
  {
  }

  /** `Subscribe` does not check registration, so an unregistered client stays out of the index for good
      exactly as long as nobody subscribes it again: the first subscription puts it back. */
  lemma {:induction false} UnregisteredStaysOutUnlessSubscribed<C>(s: Machine<C>, ops: seq<Op<C>>, c: C)
    requires IsRun(s, ops)
    requires !Indexed(s, c)
    requires forall op :: op in ops ==> !(op.Subscribe? && op.c == c)
    ensures !Indexed(After(s, ops), c)
    decreases ops
  {
    if ops != [] {
      OnlySubscribeIndexes(s, ops[0], c);
      UnregisteredStaysOutUnlessSubscribed(Step(s, ops[0]), ops[1..], c);
    }
  }

  lemma UnregisterThenSubscribe<C>(s: Machine<C>, c: C, ch: Channel)
    requires Inv(s) && s.visiting.None? && c in s.conns
    ensures var gone := Step(s, Unregister(c));
            && !Indexed(gone, c)
            && c !in gone.clients
            && Indexed(Step(gone, Subscribe(c, ch)), c)
            && c !in Step(gone, Subscribe(c, ch)).clients
  {
    var gone := Step(s, Unregister(c));
    StepKeepsInv(s, Unregister(c));
    assert ChannelsOf(gone.conns[c]) == {};
    var back := Step(gone, Subscribe(c, ch));
    assert ch in back.channels && c in back.channels[ch];
  }

  // ----- a broadcast nobody interrupts

  function VisitAll<C(==)>(conns: map<C, Conn>, targets: set<C>, m: Message): map<C, Conn> {
    map c | c in conns ::
      if c in targets && Accepts(conns[c]) then conns[c].(queue := conns[c].queue + [m]) else conns[c]
  }

  /** In whatever order its targets are visited, a broadcast that is not interleaved with anything puts its message
      once into the queue of each of them that is open and has room, and into no other. */
  lemma {:induction false} VisitsInAnyOrder<C>(s: Machine<C>, ops: seq<Op<C>>)
    requires s.visiting.Some? && IsRun(s, ops) && forall c :: c in s.conns ==> ChannelSound(s.conns[c])
    requires forall i :: 0 <= i < |ops| ==> ops[i].VisitNext?
    requires s.visiting.value.pending <= s.conns.Keys
    requires After(s, ops).visiting.None?
    ensures After(s, ops).conns == VisitAll(s.conns, s.visiting.value.pending, s.visiting.value.message)
    decreases ops
  {
    var c, pending := ops[0].c, s.visiting.value.pending;
    var next := Step(s, ops[0]);
    TrySendQueues(s.conns[c], s.visiting.value.message);
    if pending != {c} {
      VisitsInAnyOrder(next, ops[1..]);
    }
  }
}
