/** What every run of the realtime client keeps, alone and together with the stores' subscriptions. */
module RealtimeProofs {
  import opened Sequences
  import opened HubServer
  import opened RealtimeWorld

  ghost predicate IsRun(w: World, actions: seq<Action>)
    requires Inv(w)
    decreases actions
  {
    actions != [] ==>
      Enabled(w, actions[0]) && (StepKeepsInv(w, actions[0]); IsRun(Step(w, actions[0]), actions[1..]))
  }

  ghost function After(w: World, actions: seq<Action>): (r: World)
    requires Inv(w) && IsRun(w, actions)
    ensures Inv(r)
    decreases actions
  {
    if actions == [] then w else
      StepKeepsInv(w, actions[0]);
      After(Step(w, actions[0]), actions[1..])
  }

  ghost predicate Leads(from: World, actions: seq<Action>, to: World) {
    Inv(from) && IsRun(from, actions) && After(from, actions) == to
  }

  // `w` is what `actions` lead to from a client nobody has used yet.
  ghost predicate Reaches(limit: int, actions: seq<Action>, w: World) {
    Leads(Start(limit), actions, w)
  }

  // ----- connections

  function Unclosed(w: World): set<nat> {
    set g | g in w.links && !w.links[g].closed
  }

  /** Over every interleaving: no socket but the current one is ever left open; a pending reconnect timer, of
      which there is at most one, and an open socket exclude each other; every delay is within bounds; and a
      client that was started and not disconnected has a socket, a timer or a connect of the current
      generation under way, unless its last ticket request found no session. */
  lemma ConnectionInvariant(limit: int, actions: seq<Action>, w: World)
    requires Reaches(limit, actions, w)
    ensures Unclosed(w) == if w.socket.Some? then {w.socket.value} else {}
    ensures w.socket.Some? ==> w.socket.value == w.generation
    ensures |w.timers| <= 1
    ensures w.timers == map[] || Unclosed(w) == {}
    ensures forall t :: t in w.timers ==> 2000 <= w.timers[t] <= Max(limit, 2000)
    ensures 0 < w.generation && !w.intentional ==>
              Unclosed(w) != {} || w.timers != map[] || w.generation in w.fetching || w.noSessionAt == w.generation
  {
    LimitIsFixed(Start(limit), actions);
    if w.reconnectTimer.Some? {
      assert w.timers.Keys == {w.reconnectTimer.value};
      assert |w.timers| == |w.timers.Keys|;
    } else {
      assert w.timers == map[];
    }
    if w.socket.Some? {
      assert w.socket.value in Unclosed(w);
    }
  }

  lemma StepKeepsLimit(w: World, a: Action)
    requires Inv(w) && Enabled(w, a)
    ensures Step(w, a).limit == w.limit
  {
  }

  lemma {:induction false} LimitIsFixed(w: World, actions: seq<Action>)
    requires Inv(w) && IsRun(w, actions)
    ensures After(w, actions).limit == w.limit
    decreases actions
  {
    if actions != [] {
      StepKeepsInv(w, actions[0]);
      StepKeepsLimit(w, actions[0]);
      LimitIsFixed(Step(w, actions[0]), actions[1..]);
    }
  }

  lemma {:induction false} StaysDisconnected(w: World, actions: seq<Action>)
    requires Inv(w) && IsRun(w, actions)
    requires w.intentional
    requires forall i :: 0 <= i < |actions| ==> !actions[i].ConnectCalled?
    ensures After(w, actions).intentional
    ensures After(w, actions).links.Keys == w.links.Keys
    decreases actions
  {
    if actions != [] {
      StepKeepsInv(w, actions[0]);
      assert w.timers == map[];
      assert Step(w, actions[0]).links.Keys == w.links.Keys;
      StaysDisconnected(Step(w, actions[0]), actions[1..]);
    }
  }

  /** After `disconnect`, and until `connect` is called again, no socket is opened, none is left open and no
      reconnect is pending, whatever tickets, sockets and timers still report. */
  lemma NothingReconnectsAfterDisconnect(w: World, actions: seq<Action>, later: World)
    requires Inv(w) && Leads(Disconnect(w), actions, later)
    requires forall i :: 0 <= i < |actions| ==> !actions[i].ConnectCalled?
    ensures later.links.Keys == w.links.Keys && Unclosed(later) == {} && later.timers == map[]
  {
    StaysDisconnected(Disconnect(w), actions);
  }

  // ----- channels

  /** Whenever the socket is open and the hub still serves it, what the hub will have once it has read the wire
      is exactly the held channels that it allows; with nothing on the wire the two already agree. */
  lemma ChannelsAgree(limit: int, actions: seq<Action>, w: World)
    requires Reaches(limit, actions, w) && w.open
    ensures w.socket.Some? && w.socket.value in w.links
    ensures var l := w.links[w.socket.value];
            l.up ==> Drained(l.subscribed, l.wire) == w.refs.Keys * ALLOWED_CHANNELS
    ensures var l := w.links[w.socket.value];
            l.up && l.wire == [] ==> l.subscribed == w.refs.Keys * ALLOWED_CHANNELS
  {
  }

  /** Letting the hub read everything on the wire makes the two sides equal. */
  lemma {:induction false} DrainingAgrees(w: World, rs: seq<Action>)
    requires Inv(w) && w.open && w.socket.Some? && w.links[w.socket.value].up
    requires |rs| == |w.links[w.socket.value].wire|
    requires forall i :: 0 <= i < |rs| ==> rs[i] == HubReads(w.socket.value)
    ensures IsRun(w, rs)
    ensures After(w, rs).socket == w.socket && After(w, rs).refs == w.refs
    ensures After(w, rs).links[w.socket.value].subscribed == w.refs.Keys * ALLOWED_CHANNELS
    decreases rs
  {
    if rs != [] {
      StepKeepsInv(w, rs[0]);
      DrainingAgrees(Step(w, rs[0]), rs[1..]);
    }
  }

  /** The hub may drop a connection before the browser hears of it. From then on the two agree only if the
      client holds nothing the hub allows. */
  lemma HubDropBreaksAgreement(w: World)
    requires Inv(w) && w.open && w.socket.Some? && w.links[w.socket.value].wire == [] && w.links[w.socket.value].up
    ensures var w' := Step(w, HubDrops(w.socket.value));
            w'.open && (w'.links[w.socket.value].subscribed == w'.refs.Keys * ALLOWED_CHANNELS
                        <==> w.refs.Keys * ALLOWED_CHANNELS == {})
  {
  }

  // ----- the stores' subscriptions (apps/web/src/lib/core/realtime/realtime-subscription.ts)

  // The channels in insertion order, as a JavaScript set keeps them.
  datatype Sub = Sub(channels: seq<Channel>, disposed: bool)

  datatype System = System(world: World, subs: map<nat, Sub>)

  function Dedup(chs: seq<Channel>): (r: seq<Channel>)
    ensures Distinct(r) && Elements(r) == Elements(chs)
  {
    if chs == [] then [] else
      var r := Dedup(chs[..|chs| - 1]);
      assert Elements(chs) == Elements(chs[..|chs| - 1]) + {chs[|chs| - 1]};
      if chs[|chs| - 1] in r then r else r + [chs[|chs| - 1]]
  }

  function Minus(a: seq<Channel>, b: seq<Channel>): seq<Channel> {
    Filter(a, c => c !in b)
  }

  lemma {:induction false} MinusIsDistinct(a: seq<Channel>, b: seq<Channel>)
    requires Distinct(a)
    ensures Distinct(Minus(a, b))
    ensures forall ch :: ch in Minus(a, b) <==> ch in a && ch !in b
    decreases a
  {
    if a != [] {
      MinusIsDistinct(a[..|a| - 1], b);
    }
  }

  // Calls of the client that do nothing when there is nothing to say.
  function Exchange(w: World, toAdd: seq<Channel>, toRemove: seq<Channel>): World
    requires SocketExists(w)
  {
    var w1 := if toAdd != [] then Hold(w, toAdd) else w;
    if toRemove != [] then Release(w1, toRemove) else w1
  }

  datatype SystemAction =
    | Elsewhere(a: Action)
    | Created(id: nat)
    | Subscribed(id: nat, channels: seq<Channel>)
    | Disposed(id: nat)

  // Only subscriptions call the client's subscribe and unsubscribe.
  ghost predicate SystemEnabled(s: System, a: SystemAction) {
    match a
    case Elsewhere(a) => Enabled(s.world, a) && !a.SubscribeCalled? && !a.UnsubscribeCalled?
    case Created(id) => id !in s.subs
    case Subscribed(id, _) => id in s.subs
    case Disposed(id) => id in s.subs
  }

  function SystemStep(s: System, a: SystemAction): System
    requires SystemEnabled(s, a) && SocketExists(s.world)
  {
    match a
    case Elsewhere(a) => s.(world := Step(s.world, a))
    case Created(id) => s.(subs := s.subs[id := Sub([], false)])
    case Subscribed(id, channels) =>
      if s.subs[id].disposed then s else
        var desired, current := Dedup(channels), s.subs[id].channels;
        System(Exchange(Connect(s.world), Minus(desired, current), Minus(current, desired)),
               s.subs[id := Sub(desired, false)])
    case Disposed(id) =>
      if s.subs[id].disposed then s else
        System(Exchange(s.world, [], s.subs[id].channels), s.subs[id := Sub([], true)])
  }

  function Holders(subs: map<nat, Sub>, ch: Channel): set<nat> {
    set id | id in subs && ch in subs[id].channels
  }

  ghost predicate SystemInv(s: System) {
    && Inv(s.world)
    && (forall id :: id in s.subs ==>
          Distinct(s.subs[id].channels) && (s.subs[id].disposed ==> s.subs[id].channels == []))
    && (forall ch :: Count(s.world.refs, ch) == |Holders(s.subs, ch)|)
  }

  lemma HoldersAfterUpdate(subs: map<nat, Sub>, id: nat, sub: Sub, ch: Channel)
    requires id in subs
    ensures |Holders(subs[id := sub], ch)|
            == |Holders(subs, ch)| + (if ch in sub.channels then 1 else 0) - (if ch in subs[id].channels then 1 else 0)
  {
    var before, after := Holders(subs, ch), Holders(subs[id := sub], ch);
    var others := before - {id};
    assert before == if ch in subs[id].channels then others + {id} else others;
    assert after == if ch in sub.channels then others + {id} else others;
  }

  lemma ExchangeKeepsInv(w: World, toAdd: seq<Channel>, toRemove: seq<Channel>)
    requires Inv(w)
    ensures Inv(Exchange(w, toAdd, toRemove))
  {
    HoldKeepsInv(w, toAdd);
    ReleaseKeepsInv(if toAdd != [] then Hold(w, toAdd) else w, toRemove);
  }

  lemma ExchangeCounts(w: World, toAdd: seq<Channel>, toRemove: seq<Channel>, ch: Channel)
    requires Inv(w) && Distinct(toAdd) && Distinct(toRemove)
    requires ch in toRemove ==> ch !in toAdd && Count(w.refs, ch) > 0
    ensures Count(Exchange(w, toAdd, toRemove).refs, ch)
            == Count(w.refs, ch) + (if ch in toAdd then 1 else 0) - (if ch in toRemove then 1 else 0)
  {
    HoldKeepsInv(w, toAdd);
    AddRefsCounts(w.refs, toAdd, ch);
    var w1 := if toAdd != [] then Hold(w, toAdd) else w;
    ReleaseKeepsInv(w1, toRemove);
    DropRefsCounts(w1.refs, toRemove, ch);
  }

  lemma ReplaceKeepsCounts(s: System, id: nat, w: World, desired: seq<Channel>, disposed: bool)
    requires SystemInv(s) && id in s.subs && Inv(w) && w.refs == s.world.refs
    requires Distinct(desired) && (disposed ==> desired == [])
    ensures var current := s.subs[id].channels;
            SystemInv(System(Exchange(w, Minus(desired, current), Minus(current, desired)),
                             s.subs[id := Sub(desired, disposed)]))
  {
    var current := s.subs[id].channels;
    var toAdd, toRemove := Minus(desired, current), Minus(current, desired);
    MinusIsDistinct(desired, current);
    MinusIsDistinct(current, desired);
    forall ch
      ensures Count(Exchange(w, toAdd, toRemove).refs, ch) == |Holders(s.subs[id := Sub(desired, disposed)], ch)|
    {
      if ch in current {
        assert id in Holders(s.subs, ch);
      }
      ExchangeCounts(w, toAdd, toRemove, ch);
      HoldersAfterUpdate(s.subs, id, Sub(desired, disposed), ch);
    }
    ExchangeKeepsInv(w, toAdd, toRemove);
  }

  lemma OtherActionsKeepRefs(w: World, a: Action)
    requires Inv(w) && Enabled(w, a) && !a.SubscribeCalled? && !a.UnsubscribeCalled?
    ensures Step(w, a).refs == w.refs
  {
    if a.TicketResolved? {
      TicketsKeepRefs(w, a.g, a.result);
    } else if a.SocketErrs? || a.SocketCloses? {
      DropsKeepRefs(w, a);
    }
  }

  lemma TicketsKeepRefs(w: World, g: nat, result: TicketResult)
    ensures Fetched(w, g, result).refs == w.refs
  {
  }

  lemma DropsKeepRefs(w: World, a: Action)
    requires Inv(w) && Enabled(w, a) && (a.SocketErrs? || a.SocketCloses?)
    ensures Step(w, a).refs == w.refs
  {
  }

  lemma {:induction false} MinusOfNothing(a: seq<Channel>)
    ensures Minus(a, []) == a && Minus([], a) == []
    decreases a
  {
    if a != [] {
      MinusOfNothing(a[..|a| - 1]);
    }
  }

  lemma SystemStepKeepsInv(s: System, a: SystemAction)
    requires SystemInv(s) && SystemEnabled(s, a)
    ensures SystemInv(SystemStep(s, a))
  {
    match a
    case Elsewhere(a) =>
      StepKeepsInv(s.world, a);
      OtherActionsKeepRefs(s.world, a);
    case Created(id) =>
      forall ch ensures Holders(s.subs[id := Sub([], false)], ch) == Holders(s.subs, ch) {
      }
    case Subscribed(id, channels) =>
      if !s.subs[id].disposed {
        ConnectKeepsInv(s.world);
        ReplaceKeepsCounts(s, id, Connect(s.world), Dedup(channels), false);
      }
    case Disposed(id) =>
      if !s.subs[id].disposed {
        MinusOfNothing(s.subs[id].channels);
        ReplaceKeepsCounts(s, id, s.world, [], true);
      }
  }

  ghost predicate IsSystemRun(s: System, actions: seq<SystemAction>)
    requires SystemInv(s)
    decreases actions
  {
    actions != [] ==>
      SystemEnabled(s, actions[0])
      && (SystemStepKeepsInv(s, actions[0]); IsSystemRun(SystemStep(s, actions[0]), actions[1..]))
  }

  ghost function SystemAfter(s: System, actions: seq<SystemAction>): (r: System)
    requires SystemInv(s) && IsSystemRun(s, actions)
    ensures SystemInv(r)
    decreases actions
  {
    if actions == [] then s else
      SystemStepKeepsInv(s, actions[0]);
      SystemAfter(SystemStep(s, actions[0]), actions[1..])
  }

  lemma SystemStartKeepsInv(limit: int)
    ensures SystemInv(System(Start(limit), map[]))
  {
  }

  ghost predicate SystemReaches(limit: int, actions: seq<SystemAction>, s: System) {
    var start := System(Start(limit), map[]);
    SystemInv(start) && IsSystemRun(start, actions) && SystemAfter(start, actions) == s
  }

  /** Over every interleaving of the stores with the connection: a channel's count is the number of live
      subscriptions holding it, so the hub ends up with exactly the allowed channels somebody holds. */
  lemma HubFollowsTheSubscriptions(limit: int, actions: seq<SystemAction>, s: System)
    requires SystemReaches(limit, actions, s)
    ensures forall ch :: Count(s.world.refs, ch) == |Holders(s.subs, ch)|
    ensures forall id :: id in s.subs && s.subs[id].disposed ==> s.subs[id].channels == []
    ensures s.world.open && s.world.socket.Some? && s.world.links[s.world.socket.value].up ==>
              var l := s.world.links[s.world.socket.value];
              forall ch :: ch in Drained(l.subscribed, l.wire) <==> ch in ALLOWED_CHANNELS && Holders(s.subs, ch) != {}
  {
  }
}
