/**
 ProcessPlayer called for one player by the world tick and by sync requests at the same time
 (apps/api/internal/engine/simulation.go:236-544): the window under the advisory lock, and what the same call does
 after the lock is gone, the bankruptcy check and the day boundary.

 Every call is an actor that can fail at any step. What a window posts, what it leaves behind and what a settlement
 does are arbitrary functions. Times are in hours. Row locks that make some steps wait for others are not modelled;
 they only take interleavings away.
 */
module PlayerClock {
  import opened Sequences

  datatype Window = Window(from: int, to: int)

  /**
   The player's rows are an S, a posting an R, a settlement's private memory an M.

   `routes` and `rent` read what a window posts, by two statements; `install` applies the postings, and the wear
   found by the first statement, to the rows as they are at the commit. `check` is the bankruptcy check and `settle`
   one statement of the day boundary, which says whether it was the last; the flag says that the statement failed.
   */
  datatype Sim<!S, !R, !M> = Sim(
    routes: (S, Window) -> seq<R>, rent: (S, Window) -> seq<R>, install: (S, seq<R>, S, Window) -> S,
    check: (Window, S, bool) -> S, begin: Window -> M, settle: (M, S, bool) -> (M, S, bool))

  datatype Stage<S, R, M> =
    | Waiting
    | Holding
    | Posting(from: int, seen: S, at: nat, todo: seq<R>, posted: seq<R>)
    | Advanced(from: int, seen: S, at: nat, rentedAt: nat, posted: seq<R>, moved: bool)
    | Checking(from: int, moved: bool)
    | Settling(from: int, memory: M)
    | Done(ok: bool)

  datatype Actor<S, R, M> = Actor(target: int, stage: Stage<S, R, M>)

  // What has happened to the committed rows: a window, with the points at which its two reads were made, the check
  // of a call, or one statement of its day boundary.
  datatype Effect =
    | Posted(w: Window, seen: nat, rented: nat)
    | Checked(w: Window, failed: bool)
    | Settled(w: Window, failed: bool)

  // The player's committed rows and clock.
  datatype Book<S> = Book(clock: int, rows: S)

  // `boundaries` records the game dates whose day boundary was begun.
  datatype State<S, R, M> = State(
    book: Book<S>, lock: Option<nat>, actors: seq<Actor<S, R, M>>, log: seq<Effect>, boundaries: seq<int>)

  datatype Event =
    | Arrive(target: int)
    | Lock(actor: nat)
    | Read(actor: nat)
    | Post(actor: nat)
    | Advance(actor: nat)
    | Commit(actor: nat)
    | Check(actor: nat, failed: bool)
    | Settle(actor: nat, failed: bool)
    | Fail(actor: nat)

  function Day(t: int): int {
    t / 24
  }

  predicate InTx<S, R, M>(x: Actor<S, R, M>) {
    x.stage.Holding? || x.stage.Posting? || x.stage.Advanced?
  }

  predicate Enabled<S, R, M>(s: State<S, R, M>, e: Event, locking: bool) {
    if e.Arrive? then true else
      e.actor < |s.actors|
      && var stage := s.actors[e.actor].stage;
         match e
         case Lock(_) => stage.Waiting? && (locking ==> s.lock.None?)
         case Read(_) => stage.Holding?
         case Post(_) => stage.Posting? && stage.todo != []
         case Advance(_) => stage.Posting? && stage.todo == []
         case Commit(_) => stage.Advanced?
         case Check(_, _) => stage.Checking?
         case Settle(_, _) => stage.Settling?
         case Fail(_) => !stage.Done?
  }

  function At<S, R, M>(s: State<S, R, M>, i: nat, stage: Stage<S, R, M>): State<S, R, M>
    requires i < |s.actors|
  {
    s.(actors := s.actors[i := s.actors[i].(stage := stage)])
  }

  // The advisory lock goes with the transaction, however it ends.
  function Release<S, R, M>(s: State<S, R, M>, i: nat): State<S, R, M> {
    if s.lock == Some(i) then s.(lock := None) else s
  }

  // The clock moves only if the guarded UPDATE found it behind.
  function Installed<S, R, M>(sim: Sim<S, R, M>, book: Book<S>, x: Actor<S, R, M>): Book<S>
    requires x.stage.Advanced?
  {
    Book(if x.stage.moved then x.target else book.clock,
         sim.install(x.stage.seen, x.stage.posted, book.rows, Window(x.stage.from, x.target)))
  }

  function Committed<S, R, M>(sim: Sim<S, R, M>, s: State<S, R, M>, i: nat): State<S, R, M>
    requires i < |s.actors| && s.actors[i].stage.Advanced?
  {
    var x := s.actors[i];
    var w := Window(x.stage.from, x.target);
    At(Release(s, i).(book := Installed(sim, s.book, x), log := s.log + [Posted(w, x.stage.at, x.stage.rentedAt)]), i,
       Checking(x.stage.from, x.stage.moved))
  }

  // The day boundary is due to the call that moved the clock into another day.
  function AfterCheck<S, R, M>(sim: Sim<S, R, M>, s: State<S, R, M>, i: nat, failed: bool): State<S, R, M>
    requires i < |s.actors| && s.actors[i].stage.Checking?
  {
    var x := s.actors[i];
    var w := Window(x.stage.from, x.target);
    var next := s.(book := Book(s.book.clock, sim.check(w, s.book.rows, failed)), log := s.log + [Checked(w, failed)]);
    if x.stage.moved && Day(w.from) != Day(w.to)
    then At(next.(boundaries := s.boundaries + [w.to]), i, Settling(w.from, sim.begin(w)))
    else At(next, i, Done(true))
  }

  function AfterSettle<S, R, M>(sim: Sim<S, R, M>, s: State<S, R, M>, i: nat, failed: bool): State<S, R, M>
    requires i < |s.actors| && s.actors[i].stage.Settling?
  {
    var x := s.actors[i];
    var (memory, rows, last) := sim.settle(x.stage.memory, s.book.rows, failed);
    At(s.(book := Book(s.book.clock, rows), log := s.log + [Settled(Window(x.stage.from, x.target), failed)]), i,
       if last then Done(true) else Settling(x.stage.from, memory))
  }

  function Step<S, R, M>(sim: Sim<S, R, M>, s: State<S, R, M>, e: Event, locking: bool): State<S, R, M>
    requires Enabled(s, e, locking)
  {
    if e.Arrive? then s.(actors := s.actors + [Actor(e.target, Waiting)]) else
      var i, x := e.actor, s.actors[e.actor];
      match e
      case Lock(_) => At(if locking then s.(lock := Some(i)) else s, i, Holding)
      case Read(_) =>
        if x.target <= s.book.clock then At(Release(s, i), i, Done(true))
        else
          var w := Window(s.book.clock, x.target);
          At(s, i, Posting(s.book.clock, s.book.rows, |s.log|, sim.routes(s.book.rows, w), []))
      case Post(_) =>
        At(s, i, x.stage.(todo := x.stage.todo[1..], posted := x.stage.posted + [x.stage.todo[0]]))
      case Advance(_) =>
        var rent := sim.rent(s.book.rows, Window(x.stage.from, x.target));
        At(s, i, Advanced(x.stage.from, x.stage.seen, x.stage.at, |s.log|, x.stage.posted + rent,
                          s.book.clock < x.target))
      case Commit(_) => Committed(sim, s, i)
      case Check(_, failed) => AfterCheck(sim, s, i, failed)
      case Settle(_, failed) => AfterSettle(sim, s, i, failed)
      case Fail(_) => At(Release(s, i), i, Done(x.stage.Checking? || x.stage.Settling?))
  }

  ghost predicate IsRun<S, R, M>(sim: Sim<S, R, M>, s: State<S, R, M>, events: seq<Event>, locking: bool)
    decreases |events|, 0
  {
    events == [] ||
    (IsRun(sim, s, events[..|events| - 1], locking)
     && Enabled(After(sim, s, events[..|events| - 1], locking), events[|events| - 1], locking))
  }

  ghost function After<S, R, M>(sim: Sim<S, R, M>, s: State<S, R, M>, events: seq<Event>, locking: bool): State<S, R, M>
    requires IsRun(sim, s, events, locking)
    decreases |events|, 1
  {
    if events == [] then s
    else Step(sim, After(sim, s, events[..|events| - 1], locking), events[|events| - 1], locking)
  }

  function Start<S, R, M>(book: Book<S>): State<S, R, M> {
    State(book, None, [], [], [])
  }

  // ----- the effects one after another

  // The rows, the clock, and the memory of every settlement.
  datatype Progress<S, M> = Progress(book: Book<S>, memory: map<int, M>)

  // Nobody waits, holds or fails here: only what was committed, in the order it was.
  function Replay<S, R, M>(sim: Sim<S, R, M>, start: Book<S>, log: seq<Effect>): Progress<S, M>
    decreases |log|
  {
    if log == [] then Progress(start, map[])
    else
      var n := |log| - 1;
      var before := Replay(sim, start, log[..n]);
      match log[n]
      case Posted(w, seen, rented) =>
        var seenRows := if seen < n then Replay(sim, start, log[..seen]).book.rows else before.book.rows;
        var rentedRows := if rented < n then Replay(sim, start, log[..rented]).book.rows else before.book.rows;
        Flown(sim, before, w, seenRows, rentedRows)
      case Checked(w, failed) => before.(book := Book(before.book.clock, sim.check(w, before.book.rows, failed)))
      case Settled(w, failed) => SettledOnce(sim, before, w.to, failed)
  }

  function Flown<S, R, M>(sim: Sim<S, R, M>, p: Progress<S, M>, w: Window, seen: S, rented: S): Progress<S, M> {
    Progress(Book(w.to, sim.install(seen, sim.routes(seen, w) + sim.rent(rented, w), p.book.rows, w)),
             p.memory[w.to := sim.begin(w)])
  }

  function SettledOnce<S, R, M>(sim: Sim<S, R, M>, p: Progress<S, M>, to: int, failed: bool): Progress<S, M> {
    if to !in p.memory then p
    else
      var (memory, rows, last) := sim.settle(p.memory[to], p.book.rows, failed);
      Progress(Book(p.book.clock, rows), p.memory[to := memory])
  }

  // The clock the windows have brought it to.
  function EndOf(clock: int, log: seq<Effect>): int {
    if log == [] then clock
    else if log[|log| - 1].Posted? then log[|log| - 1].w.to
    else EndOf(clock, log[..|log| - 1])
  }

  function WindowsOf(log: seq<Effect>): seq<Window> {
    if log == [] then []
    else WindowsOf(log[..|log| - 1]) + if log[|log| - 1].Posted? then [log[|log| - 1].w] else []
  }

  ghost predicate NoWindowSince(log: seq<Effect>, at: nat) {
    at <= |log| && forall k :: at <= k < |log| ==> !log[k].Posted?
  }

  ghost predicate HasWindow(log: seq<Effect>, w: Window) {
    exists k :: 0 <= k < |log| && log[k].Posted? && log[k].w == w
  }

  ghost predicate WasChecked(log: seq<Effect>, w: Window) {
    exists k :: 0 <= k < |log| && log[k].Checked? && log[k].w == w
  }

  // A window starts where the last one ended and no other committed since it was read; a call is checked once, after
  // its window, and settled after its check.
  ghost predicate Follows(clock: int, log: seq<Effect>, e: Effect) {
    match e
    case Posted(w, seen, rented) =>
      w.from == EndOf(clock, log) < w.to && seen <= rented <= |log| && NoWindowSince(log, seen)
    case Checked(w, _) => HasWindow(log, w) && !WasChecked(log, w)
    case Settled(w, _) => HasWindow(log, w) && WasChecked(log, w)
  }

  ghost predicate WellFormed(clock: int, log: seq<Effect>) {
    log == [] || (WellFormed(clock, log[..|log| - 1]) && Follows(clock, log[..|log| - 1], log[|log| - 1]))
  }

  // No gap and no overlap from `start` to `end`, and every window has some length.
  ghost predicate Tile(windows: seq<Window>, start: int, end: int) {
    && (forall i :: 0 <= i < |windows| ==> windows[i].from < windows[i].to)
    && (forall i :: 0 < i < |windows| ==> windows[i].from == windows[i - 1].to)
    && (if windows == [] then start == end else windows[0].from == start && windows[|windows| - 1].to == end)
  }

  lemma TileExtends(windows: seq<Window>, start: int, end: int, w: Window)
    requires Tile(windows, start, end) && w.from == end < w.to
    ensures Tile(windows + [w], start, w.to)
  {
  }

  lemma {:induction false} WindowsTile(clock: int, log: seq<Effect>)
    requires WellFormed(clock, log)
    ensures Tile(WindowsOf(log), clock, EndOf(clock, log))
    decreases log
  {
    if log != [] {
      var n := |log| - 1;
      WindowsTile(clock, log[..n]);
      if log[n].Posted? {
        TileExtends(WindowsOf(log[..n]), clock, EndOf(clock, log[..n]), log[n].w);
      }
    }
  }

  lemma {:induction false} TilesRise(windows: seq<Window>, start: int, end: int, i: nat, j: nat)
    requires Tile(windows, start, end) && i < j < |windows|
    ensures windows[i].to <= windows[j].from
    decreases j
  {
    if i < j - 1 {
      TilesRise(windows, start, end, i, j - 1);
    }
  }

  // ----- what every step keeps

  // The lock is held by exactly the actors in their transaction, so by at most one.
  ghost predicate LockInv<S, R, M>(s: State<S, R, M>) {
    && (s.lock.Some? ==> s.lock.value < |s.actors| && InTx(s.actors[s.lock.value]))
    && (forall i :: 0 <= i < |s.actors| && InTx(s.actors[i]) ==> s.lock == Some(i))
  }

  // What one call has read, posted and remembered agrees with the effects so far.
  ghost predicate Fits<S, R, M>(sim: Sim<S, R, M>, start: Book<S>, log: seq<Effect>, x: Actor<S, R, M>) {
    match x.stage
    case Posting(from, seen, at, todo, posted) =>
      && from == EndOf(start.clock, log) < x.target && NoWindowSince(log, at)
      && seen == Replay(sim, start, log[..at]).book.rows && posted + todo == sim.routes(seen, Window(from, x.target))
    case Advanced(from, seen, at, rentedAt, posted, moved) =>
      && from == EndOf(start.clock, log) < x.target && NoWindowSince(log, at) && at <= rentedAt <= |log| && moved
      && seen == Replay(sim, start, log[..at]).book.rows
      && posted == sim.routes(seen, Window(from, x.target))
                   + sim.rent(Replay(sim, start, log[..rentedAt]).book.rows, Window(from, x.target))
    case Checking(from, moved) =>
      && moved && x.target <= EndOf(start.clock, log)
      && HasWindow(log, Window(from, x.target)) && !WasChecked(log, Window(from, x.target))
      && x.target in Replay(sim, start, log).memory
      && Replay(sim, start, log).memory[x.target] == sim.begin(Window(from, x.target))
    case Settling(from, memory) =>
      && x.target <= EndOf(start.clock, log)
      && HasWindow(log, Window(from, x.target)) && WasChecked(log, Window(from, x.target))
      && x.target in Replay(sim, start, log).memory && Replay(sim, start, log).memory[x.target] == memory
    case Done(ok) => ok ==> x.target <= EndOf(start.clock, log)
    case _ => true
  }

  predicate Unsettled<S, R, M>(x: Actor<S, R, M>) {
    x.stage.Checking? || x.stage.Settling?
  }

  ghost predicate BookInv<S, R, M>(sim: Sim<S, R, M>, start: Book<S>, s: State<S, R, M>) {
    && WellFormed(start.clock, s.log)
    && s.book == Replay(sim, start, s.log).book
    && s.book.clock == EndOf(start.clock, s.log)
  }

  ghost predicate Inv<S, R, M>(sim: Sim<S, R, M>, start: Book<S>, s: State<S, R, M>) {
    && LockInv(s)
    && BookInv(sim, start, s)
    && (forall i :: 0 <= i < |s.actors| ==> Fits(sim, start, s.log, s.actors[i]))
    && (forall i, j :: 0 <= i < j < |s.actors| && Unsettled(s.actors[i]) && Unsettled(s.actors[j]) ==>
          s.actors[i].target != s.actors[j].target)
  }

  lemma StillThere(log: seq<Effect>, e: Effect, w: Window)
    ensures HasWindow(log + [e], w) <==> HasWindow(log, w) || (e.Posted? && e.w == w)
    ensures WasChecked(log + [e], w) <==> WasChecked(log, w) || (e.Checked? && e.w == w)
  {
    assert forall k :: 0 <= k < |log| ==> (log + [e])[k] == log[k];
    assert (log + [e])[|log|] == e;
  }

  function WindowOf<S, R, M>(x: Actor<S, R, M>): Window
    requires !x.stage.Waiting? && !x.stage.Holding? && !x.stage.Done?
  {
    Window(x.stage.from, x.target)
  }

  // Effects of other calls leave what a call has read and remembered in place.
  lemma FitsStays<S, R, M>(sim: Sim<S, R, M>, start: Book<S>, log: seq<Effect>, e: Effect, x: Actor<S, R, M>)
    requires Fits(sim, start, log, x)
    requires if e.Posted? then !InTx(x) && EndOf(start.clock, log) < e.w.to else Unsettled(x) ==> e.w.to != x.target
    ensures Fits(sim, start, log + [e], x)
  {
    var longer := log + [e];
    assert longer[..|log|] == log;
    assert forall at :: 0 <= at <= |log| ==> longer[..at] == log[..at];
    if Unsettled(x) {
      StillThere(log, e, WindowOf(x));
    }
  }

  lemma CommitKeepsInv<S, R, M>(sim: Sim<S, R, M>, start: Book<S>, s: State<S, R, M>, i: nat)
    requires Inv(sim, start, s) && Enabled(s, Commit(i), true)
    ensures Inv(sim, start, Step(sim, s, Commit(i), true))
  {
    var x := s.actors[i];
    var e := Posted(Window(x.stage.from, x.target), x.stage.at, x.stage.rentedAt);
    var s' := Step(sim, s, Commit(i), true);
    assert Fits(sim, start, s.log, x) && s.lock == Some(i);
    CommitIsReplayed(sim, start, s, x, e);
    CommitterFits(sim, start, s, x, e);
    forall j | 0 <= j < |s'.actors|
      ensures Fits(sim, start, s'.log, s'.actors[j])
      ensures j != i ==> s'.actors[j] == s.actors[j] && !InTx(s.actors[j])
      ensures j != i && Unsettled(s'.actors[j]) ==> s'.actors[j].target < x.target
    {
      if j != i {
        OtherFits(sim, start, s, x, e, s.actors[j]);
      }
    }
  }

  lemma CommitterFits<S, R, M>(sim: Sim<S, R, M>, start: Book<S>, s: State<S, R, M>, x: Actor<S, R, M>, e: Effect)
    requires BookInv(sim, start, s) && x.stage.Advanced? && Fits(sim, start, s.log, x)
    requires e == Posted(Window(x.stage.from, x.target), x.stage.at, x.stage.rentedAt)
    ensures Fits(sim, start, s.log + [e], x.(stage := Checking(x.stage.from, x.stage.moved)))
  {
    CommitIsReplayed(sim, start, s, x, e);
    StillThere(s.log, e, e.w);
    NothingCheckedAhead(start.clock, s.log, e.w);
  }

  lemma OtherFits<S, R, M>(sim: Sim<S, R, M>, start: Book<S>, s: State<S, R, M>, x: Actor<S, R, M>, e: Effect,
                           y: Actor<S, R, M>)
    requires BookInv(sim, start, s) && x.stage.Advanced? && Fits(sim, start, s.log, x)
    requires e == Posted(Window(x.stage.from, x.target), x.stage.at, x.stage.rentedAt)
    requires Fits(sim, start, s.log, y) && !InTx(y)
    ensures Fits(sim, start, s.log + [e], y) && (Unsettled(y) ==> y.target < x.target)
  {
    CommitIsReplayed(sim, start, s, x, e);
    FitsStays(sim, start, s.log, e, y);
  }

  lemma CommitIsReplayed<S, R, M>(sim: Sim<S, R, M>, start: Book<S>, s: State<S, R, M>, x: Actor<S, R, M>, e: Effect)
    requires BookInv(sim, start, s) && x.stage.Advanced? && Fits(sim, start, s.log, x)
    requires e == Posted(Window(x.stage.from, x.target), x.stage.at, x.stage.rentedAt)
    ensures WellFormed(start.clock, s.log + [e]) && EndOf(start.clock, s.log + [e]) == x.target
    ensures var p := Replay(sim, start, s.log + [e]);
            p.book == Installed(sim, s.book, x) && x.target in p.memory && p.memory[x.target] == sim.begin(e.w)
  {
    var longer := s.log + [e];
    assert longer[..|s.log|] == s.log;
    assert longer[..e.seen] == s.log[..e.seen] && longer[..e.rented] == s.log[..e.rented];
    assert s.log[..|s.log|] == s.log;
  }

  // Only past calls have been checked.
  lemma {:induction false} NothingCheckedAhead(clock: int, log: seq<Effect>, w: Window)
    requires WellFormed(clock, log) && EndOf(clock, log) < w.to
    ensures !WasChecked(log, w) && !HasWindow(log, w)
    decreases log
  {
    if log != [] {
      var n := |log| - 1;
      WindowsTile(clock, log[..n]);
      NothingCheckedAhead(clock, log[..n], w);
      assert forall k :: 0 <= k < n ==> log[k] == log[..n][k];
    }
  }

  lemma EffectIsReplayed<S, R, M>(sim: Sim<S, R, M>, start: Book<S>, s: State<S, R, M>, x: Actor<S, R, M>, e: Effect)
    requires BookInv(sim, start, s) && Fits(sim, start, s.log, x) && !e.Posted?
    requires (x.stage.Checking? && e.Checked?) || (x.stage.Settling? && e.Settled?)
    requires e.w == Window(x.stage.from, x.target)
    ensures WellFormed(start.clock, s.log + [e]) && EndOf(start.clock, s.log + [e]) == s.book.clock
    ensures var p := Replay(sim, start, s.log + [e]);
            && p.book.clock == s.book.clock && x.target in p.memory
            && (e.Checked? ==>
                  p.book.rows == sim.check(e.w, s.book.rows, e.failed) && p.memory[x.target] == sim.begin(e.w))
            && (e.Settled? ==> var (memory, rows, last) := sim.settle(x.stage.memory, s.book.rows, e.failed);
                               p.book.rows == rows && p.memory[x.target] == memory)
  {
    assert (s.log + [e])[..|s.log|] == s.log;
  }

  function EffectOf<S, R, M>(x: Actor<S, R, M>, failed: bool): Effect
    requires Unsettled(x)
  {
    if x.stage.Checking? then Checked(WindowOf(x), failed) else Settled(WindowOf(x), failed)
  }

  lemma SettlerFits<S, R, M>(sim: Sim<S, R, M>, start: Book<S>, s: State<S, R, M>, e: Event)
    requires Inv(sim, start, s) && Enabled(s, e, true) && (e.Check? || e.Settle?)
    ensures var s' := Step(sim, s, e, true);
            && s'.log == s.log + [EffectOf(s.actors[e.actor], e.failed)]
            && BookInv(sim, start, s') && Fits(sim, start, s'.log, s'.actors[e.actor])
            && s'.actors[e.actor].target == s.actors[e.actor].target
  {
    var x := s.actors[e.actor];
    assert Fits(sim, start, s.log, x);
    EffectIsReplayed(sim, start, s, x, EffectOf(x, e.failed));
    StillThere(s.log, EffectOf(x, e.failed), WindowOf(x));
  }

  // A check or one statement of a settlement, which add one effect and move one actor on.
  lemma SettlementKeepsInv<S, R, M>(sim: Sim<S, R, M>, start: Book<S>, s: State<S, R, M>, e: Event)
    requires Inv(sim, start, s) && Enabled(s, e, true) && (e.Check? || e.Settle?)
    ensures Inv(sim, start, Step(sim, s, e, true))
  {
    var s' := Step(sim, s, e, true);
    SettlerFits(sim, start, s, e);
    forall j | 0 <= j < |s'.actors| && j != e.actor
      ensures Fits(sim, start, s'.log, s'.actors[j]) && s'.actors[j] == s.actors[j]
    {
      BystanderFits(sim, start, s, e, j);
    }
    assert s'.actors == s.actors[e.actor := s'.actors[e.actor]] && s'.lock == s.lock;
  }

  lemma BystanderFits<S, R, M>(sim: Sim<S, R, M>, start: Book<S>, s: State<S, R, M>, e: Event, j: nat)
    requires Inv(sim, start, s) && Enabled(s, e, true) && (e.Check? || e.Settle?) && j < |s.actors| && j != e.actor
    ensures Fits(sim, start, s.log + [EffectOf(s.actors[e.actor], e.failed)], s.actors[j])
  {
    assert Fits(sim, start, s.log, s.actors[j]);
    FitsStays(sim, start, s.log, EffectOf(s.actors[e.actor], e.failed), s.actors[j]);
  }

  lemma MoverFits<S, R, M>(sim: Sim<S, R, M>, start: Book<S>, s: State<S, R, M>, e: Event)
    requires Inv(sim, start, s) && Enabled(s, e, true)
    requires e.Lock? || e.Read? || e.Post? || e.Advance? || e.Fail?
    ensures Fits(sim, start, s.log, Step(sim, s, e, true).actors[e.actor])
  {
    assert Fits(sim, start, s.log, s.actors[e.actor]);
    assert s.log[..|s.log|] == s.log;
  }

  lemma OtherStepsKeepInv<S, R, M>(sim: Sim<S, R, M>, start: Book<S>, s: State<S, R, M>, e: Event)
    requires Inv(sim, start, s) && Enabled(s, e, true) && !e.Arrive? && !e.Commit? && !e.Check? && !e.Settle?
    ensures Inv(sim, start, Step(sim, s, e, true))
  {
    var s' := Step(sim, s, e, true);
    MoverFits(sim, start, s, e);
    assert s'.actors == s.actors[e.actor := s'.actors[e.actor]];
    assert !Unsettled(s'.actors[e.actor]) && s'.book == s.book && s'.log == s.log;
  }

  lemma ArrivalKeepsInv<S, R, M>(sim: Sim<S, R, M>, start: Book<S>, s: State<S, R, M>, target: int)
    requires Inv(sim, start, s)
    ensures Inv(sim, start, Step(sim, s, Arrive(target), true))
  {
    assert Fits(sim, start, s.log, Actor(target, Waiting));
  }

  lemma StepKeepsInv<S, R, M>(sim: Sim<S, R, M>, start: Book<S>, s: State<S, R, M>, e: Event)
    requires Inv(sim, start, s) && Enabled(s, e, true)
    ensures Inv(sim, start, Step(sim, s, e, true))
  {
    if e.Commit? {
      CommitKeepsInv(sim, start, s, e.actor);
    } else if e.Check? || e.Settle? {
      SettlementKeepsInv(sim, start, s, e);
    } else if e.Arrive? {
      ArrivalKeepsInv(sim, start, s, e.target);
    } else {
      OtherStepsKeepInv(sim, start, s, e);
    }
  }

  lemma {:induction false} RunKeepsInv<S, R, M>(sim: Sim<S, R, M>, start: Book<S>, events: seq<Event>)
    requires IsRun(sim, Start(start), events, true)
    ensures Inv(sim, start, After(sim, Start(start), events, true))
    decreases events
  {
    if events != [] {
      RunKeepsInv(sim, start, events[..|events| - 1]);
      StepKeepsInv(sim, start, After(sim, Start(start), events[..|events| - 1], true), events[|events| - 1]);
    }
  }

  /** Any interleaving of calls, failing anywhere: the committed windows tile the time from the first clock to the
      last, one after another, and clock and rows are what the committed windows, checks and settlement statements
      leave in the order they happened. */
  lemma WindowsAreSerial<S, R, M>(sim: Sim<S, R, M>, start: Book<S>, events: seq<Event>)
    requires IsRun(sim, Start(start), events, true)
    ensures var s := After(sim, Start(start), events, true);
            && WellFormed(start.clock, s.log)
            && s.book == Replay(sim, start, s.log).book
            && Tile(WindowsOf(s.log), start.clock, s.book.clock)
            && forall i, j :: 0 <= i < j < |WindowsOf(s.log)| ==> WindowsOf(s.log)[i].to < WindowsOf(s.log)[j].to
  {
    RunKeepsInv(sim, start, events);
    var s := After(sim, Start(start), events, true);
    WindowsTile(start.clock, s.log);
    forall i, j | 0 <= i < j < |WindowsOf(s.log)|
      ensures WindowsOf(s.log)[i].to < WindowsOf(s.log)[j].to
    {
      TilesRise(WindowsOf(s.log), start.clock, s.book.clock, i, j);
    }
  }

  /** Only a commit, a check or a settlement statement touches the committed rows, and only a commit the clock: a call
      that fails before its commit leaves no trace. A call that reports success has the clock at its target or
      beyond. */
  lemma FailedCallsChangeNothing<S, R, M>(sim: Sim<S, R, M>, start: Book<S>, events: seq<Event>, e: Event)
    requires IsRun(sim, Start(start), events, true) && Enabled(After(sim, Start(start), events, true), e, true)
    ensures var s := After(sim, Start(start), events, true);
            var s' := Step(sim, s, e, true);
            && (!e.Commit? && !e.Check? && !e.Settle? ==> s'.book == s.book && s'.log == s.log)
            && (!e.Commit? ==> s'.book.clock == s.book.clock)
            && (e.Commit? ==> s'.book.clock == s.actors[e.actor].target > s.book.clock)
            && (forall i :: 0 <= i < |s'.actors| && s'.actors[i].stage == Done(true) ==>
                  s'.actors[i].target <= s'.book.clock)
  {
    RunKeepsInv(sim, start, events);
    var s := After(sim, Start(start), events, true);
    StepKeepsInv(sim, start, s, e);
    var s' := Step(sim, s, e, true);
    if e.Commit? {
      assert Fits(sim, start, s.log, s.actors[e.actor]);
    }
    forall i | 0 <= i < |s'.actors| && s'.actors[i].stage == Done(true)
      ensures s'.actors[i].target <= s'.book.clock
    {
      assert Fits(sim, start, s'.log, s'.actors[i]);
    }
  }

  lemma {:induction false} PrefixIsWellFormed(clock: int, log: seq<Effect>, n: nat)
    requires WellFormed(clock, log) && n <= |log|
    ensures WellFormed(clock, log[..n])
    decreases log
  {
    if n < |log| {
      PrefixIsWellFormed(clock, log[..|log| - 1], n);
      assert log[..|log| - 1][..n] == log[..n];
    } else {
      assert log[..n] == log;
    }
  }

  lemma WindowsArePast(clock: int, log: seq<Effect>, w: Window)
    requires WellFormed(clock, log)
    ensures HasWindow(log, w) ==> w.to <= EndOf(clock, log)
  {
    if EndOf(clock, log) < w.to {
      NothingCheckedAhead(clock, log, w);
    }
  }

  // ----- the day boundary

  // Some committed window ends at `t` on another day than it began.
  ghost predicate Due(log: seq<Effect>, t: int) {
    exists w :: HasWindow(log, w) && w.to == t && Day(w.from) != Day(t)
  }

  lemma DueStaysDue(clock: int, log: seq<Effect>, e: Effect, t: int)
    requires WellFormed(clock, log)
    ensures Due(log, t) ==> Due(log + [e], t) && t <= EndOf(clock, log)
  {
    if Due(log, t) {
      var w :| HasWindow(log, w) && w.to == t && Day(w.from) != Day(t);
      StillThere(log, e, w);
      WindowsArePast(clock, log, w);
    }
  }

  // Each boundary begun belongs to a committed window of its own; a call still to be checked has begun none.
  ghost predicate BoundaryInv<S, R, M>(s: State<S, R, M>) {
    && (forall k :: 0 <= k < |s.boundaries| ==> Due(s.log, s.boundaries[k]))
    && (forall k, l :: 0 <= k < l < |s.boundaries| ==> s.boundaries[k] != s.boundaries[l])
    && (forall i :: 0 <= i < |s.actors| && s.actors[i].stage.Checking? ==> s.actors[i].target !in s.boundaries)
  }

  lemma EffectKeepsDue<S, R, M>(sim: Sim<S, R, M>, start: Book<S>, s: State<S, R, M>, e: Effect)
    requires BookInv(sim, start, s) && BoundaryInv(s)
    ensures forall k :: 0 <= k < |s.boundaries| ==> Due(s.log + [e], s.boundaries[k]) && s.boundaries[k] <= s.book.clock
  {
    forall k | 0 <= k < |s.boundaries|
      ensures Due(s.log + [e], s.boundaries[k]) && s.boundaries[k] <= s.book.clock
    {
      DueStaysDue(start.clock, s.log, e, s.boundaries[k]);
    }
  }

  lemma CheckKeepsBoundaries<S, R, M>(sim: Sim<S, R, M>, start: Book<S>, s: State<S, R, M>, e: Event)
    requires Inv(sim, start, s) && BoundaryInv(s) && Enabled(s, e, true) && e.Check?
    ensures BoundaryInv(Step(sim, s, e, true))
  {
    var x := s.actors[e.actor];
    assert Fits(sim, start, s.log, x);
    EffectKeepsDue(sim, start, s, EffectOf(x, e.failed));
    StillThere(s.log, EffectOf(x, e.failed), WindowOf(x));
  }

  lemma StepKeepsBoundaries<S, R, M>(sim: Sim<S, R, M>, start: Book<S>, s: State<S, R, M>, e: Event)
    requires Inv(sim, start, s) && BoundaryInv(s) && Enabled(s, e, true)
    ensures BoundaryInv(Step(sim, s, e, true))
  {
    if e.Check? {
      CheckKeepsBoundaries(sim, start, s, e);
    } else if e.Commit? {
      var x := s.actors[e.actor];
      assert Fits(sim, start, s.log, x);
      EffectKeepsDue(sim, start, s, Posted(WindowOf(x), x.stage.at, x.stage.rentedAt));
    } else if e.Settle? {
      EffectKeepsDue(sim, start, s, EffectOf(s.actors[e.actor], e.failed));
    }
  }

  lemma {:induction false} RunKeepsBoundaries<S, R, M>(sim: Sim<S, R, M>, start: Book<S>, events: seq<Event>)
    requires IsRun(sim, Start(start), events, true)
    ensures BoundaryInv(After(sim, Start(start), events, true))
    decreases events
  {
    if events != [] {
      var shorter := events[..|events| - 1];
      RunKeepsInv(sim, start, shorter);
      RunKeepsBoundaries(sim, start, shorter);
      StepKeepsBoundaries(sim, start, After(sim, Start(start), shorter, true), events[|events| - 1]);
    }
  }

  lemma {:induction false} WindowIsListed(log: seq<Effect>, w: Window)
    requires HasWindow(log, w)
    ensures w in WindowsOf(log)
    decreases log
  {
    var n := |log| - 1;
    assert log[..n] + [log[n]] == log;
    StillThere(log[..n], log[n], w);
    if HasWindow(log[..n], w) {
      WindowIsListed(log[..n], w);
    }
  }

  lemma CrossingsAreDaysApart(clock: int, log: seq<Effect>, t: int, u: int)
    requires WellFormed(clock, log) && Due(log, t) && Due(log, u) && t != u
    ensures Day(t) != Day(u)
  {
    var v :| HasWindow(log, v) && v.to == t && Day(v.from) != Day(t);
    var w :| HasWindow(log, w) && w.to == u && Day(w.from) != Day(u);
    WindowIsListed(log, v);
    WindowIsListed(log, w);
    WindowsTile(clock, log);
    var windows := WindowsOf(log);
    var i: nat :| i < |windows| && windows[i] == v;
    var j: nat :| j < |windows| && windows[j] == w;
    if i < j {
      TilesRise(windows, clock, EndOf(clock, log), i, j);
    } else {
      TilesRise(windows, clock, EndOf(clock, log), j, i);
    }
  }

  /** A game day's boundary is begun at most once, whoever calls and whatever fails. */
  lemma NoDayIsSettledTwice<S, R, M>(sim: Sim<S, R, M>, start: Book<S>, events: seq<Event>, k: nat, l: nat)
    requires IsRun(sim, Start(start), events, true)
    requires k < l < |After(sim, Start(start), events, true).boundaries|
    ensures var b := After(sim, Start(start), events, true).boundaries; Day(b[k]) != Day(b[l])
  {
    RunKeepsInv(sim, start, events);
    RunKeepsBoundaries(sim, start, events);
    var s := After(sim, Start(start), events, true);
    CrossingsAreDaysApart(start.clock, s.log, s.boundaries[k], s.boundaries[l]);
  }
}
