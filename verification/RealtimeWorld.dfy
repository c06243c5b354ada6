/**
 The browser's realtime client (apps/web/src/lib/core/realtime/realtime-client.ts) together with what surrounds
 it: ticket requests in flight, sockets, timers, the wire of each socket and the hub's view of its far end.

 A connect attempt is identified by its generation, and so is the socket it opens. Browser events come in the
 order of the WHATWG WebSockets Standard, section 4 ("Feedback from the protocol"): no open after an error or a
 close of the same socket.
 */
module RealtimeWorld {
  import opened Sequences
  import opened HubServer

  type Channel = string
  type Refs = map<Channel, nat>

  // ----- reference counts

  function Count(refs: Refs, ch: Channel): nat {
    if ch in refs then refs[ch] else 0
  }

  function AddRefs(refs: Refs, chs: seq<Channel>): Refs
    decreases chs
  {
    if chs == [] then refs else
      var r := AddRefs(refs, chs[..|chs| - 1]);
      r[chs[|chs| - 1] := Count(r, chs[|chs| - 1]) + 1]
  }

  // The channels whose count went from 0 to 1.
  function Fresh(refs: Refs, chs: seq<Channel>): seq<Channel>
    decreases chs
  {
    if chs == [] then [] else
      Fresh(refs, chs[..|chs| - 1])
      + if Count(AddRefs(refs, chs[..|chs| - 1]), chs[|chs| - 1]) == 0 then [chs[|chs| - 1]] else []
  }

  function DropRef(refs: Refs, ch: Channel): Refs {
    if Count(refs, ch) <= 1 then refs - {ch} else refs[ch := refs[ch] - 1]
  }

  function DropRefs(refs: Refs, chs: seq<Channel>): Refs
    decreases chs
  {
    if chs == [] then refs else DropRef(DropRefs(refs, chs[..|chs| - 1]), chs[|chs| - 1])
  }

  // The channels whose count is gone; one that was never held is reported as gone too.
  function Gone(refs: Refs, chs: seq<Channel>): seq<Channel>
    decreases chs
  {
    if chs == [] then [] else
      Gone(refs, chs[..|chs| - 1])
      + if Count(DropRefs(refs, chs[..|chs| - 1]), chs[|chs| - 1]) <= 1 then [chs[|chs| - 1]] else []
  }

  ghost predicate Positive(refs: Refs) {
    forall ch :: ch in refs ==> refs[ch] > 0
  }

  ghost predicate Distinct(chs: seq<Channel>) {
    forall i, j :: 0 <= i < j < |chs| ==> chs[i] != chs[j]
  }

  lemma {:induction false} AddRefsAnnouncesNewKeys(refs: Refs, chs: seq<Channel>)
    requires Positive(refs)
    ensures Positive(AddRefs(refs, chs))
    ensures AddRefs(refs, chs).Keys == refs.Keys + Elements(Fresh(refs, chs))
    decreases chs
  {
    if chs != [] {
      AddRefsAnnouncesNewKeys(refs, chs[..|chs| - 1]);
    }
  }

  lemma {:induction false} DropRefsAnnouncesLostKeys(refs: Refs, chs: seq<Channel>)
    requires Positive(refs)
    ensures Positive(DropRefs(refs, chs))
    ensures DropRefs(refs, chs).Keys == refs.Keys - Elements(Gone(refs, chs))
    decreases chs
  {
    if chs != [] {
      DropRefsAnnouncesLostKeys(refs, chs[..|chs| - 1]);
    }
  }

  lemma {:induction false} AddRefsCounts(refs: Refs, chs: seq<Channel>, ch: Channel)
    requires Distinct(chs)
    ensures Count(AddRefs(refs, chs), ch) == Count(refs, ch) + if ch in chs then 1 else 0
    decreases chs
  {
    if chs != [] {
      AddRefsCounts(refs, chs[..|chs| - 1], ch);
    }
  }

  lemma {:induction false} DropRefsCounts(refs: Refs, chs: seq<Channel>, ch: Channel)
    requires Distinct(chs)
    ensures Count(DropRefs(refs, chs), ch)
            == if ch in chs then (if Count(refs, ch) <= 1 then 0 else Count(refs, ch) - 1) else Count(refs, ch)
    decreases chs
  {
    if chs != [] {
      DropRefsCounts(refs, chs[..|chs| - 1], ch);
    }
  }

  // ----- backoff

  function Pow2(n: nat): nat {
    if n == 0 then 1 else 2 * Pow2(n - 1)
  }

  // The value a 32-bit shift leaves.
  function ToInt32(x: nat): int {
    var low := x % 0x1_0000_0000;
    if low < 0x8000_0000 then low else low - 0x1_0000_0000
  }

  function Min(a: int, b: int): int {
    if a < b then a else b
  }

  function Max(a: int, b: int): int {
    if a > b then a else b
  }

  const MAX_ATTEMPTS := 30

  // Milliseconds before the next attempt: `2 << attempts` seconds, between 2 seconds and the configured limit.
  function Backoff(attempts: nat, limit: int): int {
    Max(Min(ToInt32(2 * Pow2(attempts)) * 1000, limit), 2000)
  }

  lemma {:induction false} Pow2Sum(a: nat, b: nat)
    ensures Pow2(a + b) == Pow2(a) * Pow2(b)
    decreases a
  {
    if a != 0 {
      Pow2Sum(a - 1, b);
    }
  }

  lemma {:induction false} Pow2Grows(a: nat, b: nat)
    requires a <= b
    ensures Pow2(a) <= Pow2(b)
    decreases b
  {
    if a < b {
      Pow2Grows(a, b - 1);
    }
  }

  lemma Pow2Of30()
    ensures Pow2(30) == 0x4000_0000
  {
    assert Pow2(5) == 32;
    Pow2Sum(5, 5);
    Pow2Sum(10, 10);
    Pow2Sum(20, 10);
  }

  lemma BackoffValue(attempts: nat, limit: int)
    requires attempts <= MAX_ATTEMPTS
    ensures Backoff(attempts, limit)
            == if attempts == MAX_ATTEMPTS then 2000 else Max(Min(2000 * Pow2(attempts), limit), 2000)
  {
    Pow2Of30();
    if attempts < MAX_ATTEMPTS {
      Pow2Grows(attempts, 29);
      Pow2Sum(1, 29);
    } else {
      assert ToInt32(2 * Pow2(30)) == -0x8000_0000;
    }
  }

  /** Every delay lies between 2 seconds and the limit. */
  lemma BackoffWithinBounds(attempts: nat, limit: int)
    requires attempts <= MAX_ATTEMPTS
    ensures 2000 <= Backoff(attempts, limit) <= Max(limit, 2000)
  {
  }

  /** The delay grows with the failures, as documented, exactly while the shift has not overflowed: from the
      thirtieth failure on it is back at 2 seconds. */
  lemma BackoffGrowsIff(fewer: nat, more: nat, limit: int)
    requires fewer < more <= MAX_ATTEMPTS && limit > 2000
    ensures Backoff(fewer, limit) <= Backoff(more, limit) <==> (more < MAX_ATTEMPTS || fewer == 0)
  {
    BackoffValue(fewer, limit);
    BackoffValue(more, limit);
    Pow2Grows(fewer, more);
    if 0 < fewer {
      Pow2Grows(1, fewer);
    }
  }

  // ----- the world

  // One socket: may it still open, has either side closed it, what is on the wire, and at the far end the
  // channels the hub has for it and whether the hub still serves it.
  datatype Link = Link(opening: bool, closed: bool, wire: seq<Request>, subscribed: set<Channel>, up: bool)

  const NEW_LINK := Link(true, false, [], {}, true)

  datatype World = World(
    // fields of RealtimeClient
    socket: Option<nat>, refs: Refs, pingTimer: Option<nat>, reconnectTimer: Option<nat>, attempts: nat,
    intentional: bool, generation: nat, scheduledFor: int, healthy: bool, open: bool, limit: int,
    // its surroundings
    fetching: set<nat>, links: map<nat, Link>, timers: map<nat, int>, intervals: set<nat>, handles: nat,
    noSessionAt: int)

  datatype TicketResult =
    | FetchFailed
    | NoSession
    | Ticket(constructed: bool)  // false when constructing the socket throws

  function Start(limit: int): World {
    World(None, map[], None, None, 0, false, 0, -1, false, false, limit, {}, map[], map[], {}, 0, -1)
  }

  function Send(w: World, r: Request): World
    requires w.socket.Some? && w.socket.value in w.links
  {
    var g := w.socket.value;
    w.(links := w.links[g := w.links[g].(wire := w.links[g].wire + [r])])
  }

  ghost predicate SocketExists(w: World) {
    w.socket.Some? ==> w.socket.value in w.links
  }

  function SendChannels(w: World, r: Request): World
    requires SocketExists(w) && !r.Ping?
  {
    if !w.open || w.socket.None? || r.channels == [] then w else Send(w, r)
  }

  function SendPing(w: World): World
    requires SocketExists(w)
  {
    if !w.open || w.socket.None? then w else Send(w, Ping)
  }

  function CloseLink(links: map<nat, Link>, socket: Option<nat>): map<nat, Link> {
    if socket.Some? && socket.value in links then links[socket.value := links[socket.value].(closed := true)] else links
  }

  function Without(timers: map<nat, int>, t: Option<nat>): map<nat, int> {
    if t.Some? then timers - {t.value} else timers
  }

  function ClearReconnect(w: World): World {
    w.(reconnectTimer := None, timers := Without(w.timers, w.reconnectTimer))
  }

  function ClearPing(w: World): World {
    w.(pingTimer := None, intervals := if w.pingTimer.Some? then w.intervals - {w.pingTimer.value} else w.intervals)
  }

  function Teardown(w: World): World {
    ClearPing(w).(links := CloseLink(w.links, w.socket), socket := None, open := false)
  }

  function Connect(w: World): World {
    if w.socket.Some? then w
    else ClearReconnect(w).(intentional := false, generation := w.generation + 1,
                            fetching := w.fetching + {w.generation + 1})
  }

  function ArmReconnect(w: World): World {
    w.(timers := Without(w.timers, w.reconnectTimer)[w.handles := Backoff(w.attempts, w.limit)],
       attempts := if w.attempts < MAX_ATTEMPTS then w.attempts + 1 else w.attempts,
       reconnectTimer := Some(w.handles), handles := w.handles + 1)
  }

  function ScheduleReconnect(w: World, generation: Option<nat>): World {
    if w.intentional then w
    else if generation.None? then ArmReconnect(w)
    else if w.scheduledFor == generation.value then w
    else ArmReconnect(w.(scheduledFor := generation.value))
  }

  // The socket just constructed becomes the current one.
  function Adopt(w: World, g: nat): World {
    w.(links := w.links[g := NEW_LINK], socket := Some(g), healthy := false, open := false,
       scheduledFor := -1, pingTimer := Some(w.handles), intervals := w.intervals + {w.handles},
       handles := w.handles + 1)
  }

  function Fetched(w: World, g: nat, result: TicketResult): World {
    var w := w.(fetching := w.fetching - {g});
    if result.FetchFailed? then (if g == w.generation then ScheduleReconnect(w, None) else w)
    else if g != w.generation || w.intentional then w
    else if result.NoSession? then w.(noSessionAt := g)
    else if !result.constructed then ScheduleReconnect(Teardown(w), None)
    else Adopt(w, g)
  }

  function OnOpen(w: World, g: nat, order: seq<Channel>): World
    requires SocketExists(w)
  {
    if g != w.generation then w else SendChannels(w.(open := true), Request.Subscribe(order))
  }

  function OnMessage(w: World, g: nat): World {
    if g != w.generation || w.healthy then w else w.(healthy := true, attempts := 0)
  }

  // onerror and onclose run the same code.
  function OnDrop(w: World, g: nat): World {
    if g != w.generation then w else ScheduleReconnect(Teardown(w), Some(g))
  }

  function Disconnect(w: World): World {
    Teardown(ClearReconnect(w)).(intentional := true, generation := w.generation + 1, healthy := false)
  }

  function Hold(w: World, chs: seq<Channel>): World
    requires SocketExists(w)
  {
    SendChannels(w.(refs := AddRefs(w.refs, chs)), Request.Subscribe(Fresh(w.refs, chs)))
  }

  function Release(w: World, chs: seq<Channel>): World
    requires SocketExists(w)
  {
    SendChannels(w.(refs := DropRefs(w.refs, chs)), Request.Unsubscribe(Gone(w.refs, chs)))
  }

  datatype Action =
    | ConnectCalled
    | DisconnectCalled
    | SubscribeCalled(chs: seq<Channel>)
    | UnsubscribeCalled(chs: seq<Channel>)
    | TicketResolved(g: nat, result: TicketResult)
    | SocketOpens(g: nat, order: seq<Channel>)  // `order` is the iteration order of the map's keys
    | SocketReceives(g: nat)
    | SocketErrs(g: nat)
    | SocketCloses(g: nat)
    | TimerFires(t: nat)
    | IntervalFires
    | HubReads(g: nat)
    | HubDrops(g: nat)   // the hub gives up on the connection before the browser knows

  ghost predicate Enabled(w: World, a: Action) {
    match a
    case TicketResolved(g, _) => g in w.fetching
    case SocketOpens(g, order) =>
      g in w.links && w.links[g].opening && !w.links[g].closed && Distinct(order) && Elements(order) == w.refs.Keys
    case SocketReceives(g) => g in w.links
    case SocketErrs(g) => g in w.links
    case SocketCloses(g) => g in w.links
    case TimerFires(t) => t in w.timers
    case HubReads(g) => g in w.links && w.links[g].wire != []
    case HubDrops(g) => g in w.links
    case _ => true
  }

  function SetLink(w: World, g: nat, l: Link): World {
    w.(links := w.links[g := l])
  }

  function Step(w: World, a: Action): World
    requires Enabled(w, a) && SocketExists(w)
  {
    match a
    case ConnectCalled => Connect(w)
    case DisconnectCalled => Disconnect(w)
    case SubscribeCalled(chs) => Hold(w, chs)
    case UnsubscribeCalled(chs) => Release(w, chs)
    case TicketResolved(g, result) => Fetched(w, g, result)
    case SocketOpens(g, order) => OnOpen(SetLink(w, g, w.links[g].(opening := false)), g, order)
    case SocketReceives(g) => OnMessage(w, g)
    case SocketErrs(g) => OnDrop(SetLink(w, g, w.links[g].(opening := false)), g)
    case SocketCloses(g) => OnDrop(SetLink(w, g, w.links[g].(opening := false, closed := true)), g)
    case TimerFires(t) =>
      var w' := w.(timers := w.timers - {t});
      if w'.intentional then w' else Connect(w')
    case IntervalFires => SendPing(w)
    case HubReads(g) =>
      SetLink(w, g, w.links[g].(wire := w.links[g].wire[1..],
                                subscribed := Served(w.links[g].subscribed, w.links[g].wire[0])))
    case HubDrops(g) => SetLink(w, g, w.links[g].(up := false, subscribed := {}))
  }

  // ----- invariants

  // Sockets, timers and intervals: at most one of each, and the one the client knows.
  ghost predicate HandlesInv(w: World) {
    && (forall g :: w.socket == Some(g) ==> g == w.generation && g in w.links && !w.links[g].closed)
    && (forall g :: g in w.links && !w.links[g].closed ==> w.socket == Some(g))
    && (forall t :: t in w.timers <==> w.reconnectTimer == Some(t))
    && (forall t :: t in w.intervals <==> w.pingTimer == Some(t))
    && (forall t :: t in w.timers || t in w.intervals ==> t < w.handles)
    && (w.pingTimer.Some? <==> w.socket.Some?)
    && (w.reconnectTimer.Some? ==> w.socket.None?)
    && (forall g :: g in w.fetching ==> g <= w.generation && g !in w.links)
    && (forall g :: g in w.links ==> g <= w.generation)
  }

  ghost predicate ProgressInv(w: World) {
    && (w.intentional ==> w.socket.None? && w.reconnectTimer.None? && w.generation !in w.fetching)
    && (w.generation in w.fetching ==> w.reconnectTimer.None?)
    && w.scheduledFor <= w.generation
    && (w.scheduledFor == w.generation && !w.intentional ==> w.reconnectTimer.Some?)
    && w.attempts <= MAX_ATTEMPTS
    && (forall t :: t in w.timers ==> 2000 <= w.timers[t] <= Max(w.limit, 2000))
    && (0 < w.generation && !w.intentional ==>
          w.socket.Some? || w.reconnectTimer.Some? || w.generation in w.fetching || w.noSessionAt == w.generation)
  }

  // Channels the hub will have once it has read what is on the wire.
  function Drained(subscribed: set<Channel>, wire: seq<Request>): set<Channel>
    decreases wire
  {
    if wire == [] then subscribed else Served(Drained(subscribed, wire[..|wire| - 1]), wire[|wire| - 1])
  }

  ghost predicate ChannelsInv(w: World) {
    && Positive(w.refs)
    && (w.open ==> w.socket.Some?)
    && (w.socket.Some? && w.socket.value in w.links ==>
          var l := w.links[w.socket.value];
          && (!w.open ==> l.wire == [] && l.subscribed == {})
          && (w.open && l.up ==> Drained(l.subscribed, l.wire) == w.refs.Keys * ALLOWED_CHANNELS))
  }

  ghost predicate Inv(w: World) {
    HandlesInv(w) && ProgressInv(w) && ChannelsInv(w)
  }

  lemma StartKeepsInv(limit: int)
    ensures Inv(Start(limit))
  {
  }

  lemma ConnectKeepsInv(w: World)
    requires Inv(w)
    ensures Inv(Connect(w))
  {
  }

  lemma TeardownKeepsHandles(w: World)
    requires HandlesInv(w)
    ensures HandlesInv(Teardown(w))
  {
  }

  lemma DisconnectKeepsInv(w: World)
    requires Inv(w)
    ensures Inv(Disconnect(w))
  {
  }

  lemma ArmKeepsInv(w: World)
    requires HandlesInv(w) && ChannelsInv(w)
    requires w.socket.None? && !w.intentional && w.generation !in w.fetching && w.scheduledFor <= w.generation
             && w.attempts <= MAX_ATTEMPTS
    requires forall t :: t in w.timers ==> 2000 <= w.timers[t] <= Max(w.limit, 2000)
    ensures Inv(ArmReconnect(w))
  {
  }

  lemma FetchedKeepsInv(w: World, g: nat, result: TicketResult)
    requires Inv(w) && g in w.fetching
    ensures Inv(Fetched(w, g, result))
  {
    var w' := w.(fetching := w.fetching - {g});
    if result.FetchFailed? {
      if g == w.generation {
        ArmKeepsInv(w');
      }
    } else if g == w.generation && !w.intentional && result.Ticket? && !result.constructed {
      TeardownKeepsHandles(w');
      ArmKeepsInv(Teardown(w'));
    }
  }

  lemma MarkingOldLinkKeepsInv(w: World, g: nat, l: Link)
    requires Inv(w) && g in w.links && g != w.generation && l.closed == w.links[g].closed
    ensures Inv(SetLink(w, g, l))
  {
  }

  lemma TeardownMarkedKeepsInv(w: World, g: nat, l: Link)
    requires Inv(w) && g in w.links && g == w.generation && (w.links[g].closed ==> l.closed)
    ensures HandlesInv(Teardown(SetLink(w, g, l))) && ChannelsInv(Teardown(SetLink(w, g, l)))
  {
  }

  lemma DropKeepsInv(w: World, g: nat, l: Link)
    requires Inv(w) && g in w.links && (w.links[g].closed ==> l.closed)
    ensures Inv(OnDrop(SetLink(w, g, l), g))
  {
    if g != w.generation {
      assert w.links[g].closed;
      MarkingOldLinkKeepsInv(w, g, l);
    } else {
      TeardownMarkedKeepsInv(w, g, l);
      var torn := Teardown(SetLink(w, g, l));
      if !w.intentional && w.scheduledFor != g {
        ArmKeepsInv(torn.(scheduledFor := g));
      }
    }
  }

  lemma SendKeepsInv(w: World, r: Request)
    requires HandlesInv(w) && ProgressInv(w) && Positive(w.refs) && w.open && w.socket.Some?
    requires var l := w.links[w.socket.value];
             l.up ==> Served(Drained(l.subscribed, l.wire), r) == w.refs.Keys * ALLOWED_CHANNELS
    ensures Inv(Send(w, r))
  {
  }

  lemma HoldKeepsInv(w: World, chs: seq<Channel>)
    requires Inv(w)
    ensures Inv(Hold(w, chs))
  {
    AddRefsAnnouncesNewKeys(w.refs, chs);
    var added := Fresh(w.refs, chs);
    if w.open {
      if added != [] {
        SendKeepsInv(w.(refs := AddRefs(w.refs, chs)), Request.Subscribe(added));
      }
    }
  }

  lemma ReleaseKeepsInv(w: World, chs: seq<Channel>)
    requires Inv(w)
    ensures Inv(Release(w, chs))
  {
    DropRefsAnnouncesLostKeys(w.refs, chs);
    var gone := Gone(w.refs, chs);
    if w.open {
      if gone != [] {
        SendKeepsInv(w.(refs := DropRefs(w.refs, chs)), Request.Unsubscribe(gone));
      }
    }
  }

  lemma OpenKeepsInv(w: World, g: nat, order: seq<Channel>)
    requires Inv(w) && Enabled(w, SocketOpens(g, order))
    ensures Inv(Step(w, SocketOpens(g, order)))
  {
    var w' := SetLink(w, g, w.links[g].(opening := false));
    assert w.socket == Some(g);
    if order != [] {
      if !w.open {
        SendKeepsInv(w'.(open := true), Request.Subscribe(order));
      } else {
        SendKeepsInv(w', Request.Subscribe(order));
      }
    }
  }

  lemma {:induction false} DrainedFromTheFront(subscribed: set<Channel>, wire: seq<Request>)
    requires wire != []
    ensures Drained(Served(subscribed, wire[0]), wire[1..]) == Drained(subscribed, wire)
    decreases wire
  {
    if |wire| > 1 {
      var shorter := wire[..|wire| - 1];
      DrainedFromTheFront(subscribed, shorter);
      assert wire[1..][..|wire| - 2] == shorter[1..];
    }
  }

  lemma StepKeepsInv(w: World, a: Action)
    requires Inv(w) && Enabled(w, a)
    ensures Inv(Step(w, a))
  {
    match a
    case ConnectCalled => ConnectKeepsInv(w);
    case DisconnectCalled => DisconnectKeepsInv(w);
    case SubscribeCalled(chs) => HoldKeepsInv(w, chs);
    case UnsubscribeCalled(chs) => ReleaseKeepsInv(w, chs);
    case TicketResolved(g, result) => FetchedKeepsInv(w, g, result);
    case SocketOpens(g, order) => OpenKeepsInv(w, g, order);
    case SocketReceives(g) =>
    case SocketErrs(g) => DropKeepsInv(w, g, w.links[g].(opening := false));
    case SocketCloses(g) => DropKeepsInv(w, g, w.links[g].(opening := false, closed := true));
    case TimerFires(t) =>
    case IntervalFires => PingKeepsInv(w);
    case HubReads(g) => HubReadKeepsInv(w, g);
    case HubDrops(g) =>
  }

  lemma PingKeepsInv(w: World)
    requires Inv(w)
    ensures Inv(SendPing(w))
  {
  }

  lemma HubReadKeepsInv(w: World, g: nat)
    requires Inv(w) && Enabled(w, HubReads(g))
    ensures Inv(Step(w, HubReads(g)))
  {
    DrainedFromTheFront(w.links[g].subscribed, w.links[g].wire);
  }
}
