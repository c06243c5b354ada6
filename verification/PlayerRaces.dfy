/** Runs in which concurrent calls are not the calls one after another, on the engine's own settlement. */
module PlayerRaces {
  import opened Sequences
  import opened Money
  import opened Airline
  import opened DayBoundary
  import opened AirlineRuns
  import P = PlayerClock
  import C = PlayerCalls
  import D = DayBoundary
  import LoanProofs

  type Window = P.Window

  // ----- running a race

  // `events` lead from a player nobody has called yet to `s`.
  ghost predicate Leads<S, R, M>(sim: P.Sim<S, R, M>, start: P.Book<S>,
                                 events: seq<P.Event>, locking: bool, s: P.State<S, R, M>)
  {
    P.IsRun(sim, P.Start(start), events, locking) && P.After(sim, P.Start(start), events, locking) == s
  }

  lemma GoOn<S, R, M>(sim: P.Sim<S, R, M>, start: P.Book<S>, events: seq<P.Event>, locking: bool, s: P.State<S, R, M>,
                      e: P.Event, s': P.State<S, R, M>)
    requires Leads(sim, start, events, locking, s) && P.Enabled(s, e, locking) && s' == P.Step(sim, s, e, locking)
    ensures Leads(sim, start, events + [e], locking, s')
  {
    assert (events + [e])[..|events|] == events;
  }

  function Held<S, R, M>(s: P.State<S, R, M>, i: nat, locking: bool): P.State<S, R, M> {
    if locking then s.(lock := Some(i)) else s
  }

  // A call that finds the clock behind its target takes the lock and reads the routes.
  lemma Reads<S, R, M>(sim: P.Sim<S, R, M>, start: P.Book<S>, events: seq<P.Event>,
                       locking: bool, s: P.State<S, R, M>, i: nat)
    requires Leads(sim, start, events, locking, s) && i < |s.actors| && s.actors[i].stage.Waiting? && s.lock.None?
    requires s.book.clock < s.actors[i].target
    ensures var w := P.Window(s.book.clock, s.actors[i].target);
            Leads(sim, start, events + [P.Lock(i), P.Read(i)], locking,
                  P.At(Held(s, i, locking), i,
                       P.Posting(s.book.clock, s.book.rows, |s.log|, sim.routes(s.book.rows, w), [])))
  {
    var holding := P.At(Held(s, i, locking), i, P.Holding);
    GoOn(sim, start, events, locking, s, P.Lock(i), holding);
    var w := P.Window(s.book.clock, s.actors[i].target);
    var posting := P.Posting(s.book.clock, s.book.rows, |s.log|, sim.routes(s.book.rows, w), []);
    assert P.At(holding, i, posting) == P.At(Held(s, i, locking), i, posting);
    GoOn(sim, start, events + [P.Lock(i)], locking, holding, P.Read(i), P.At(holding, i, posting));
    assert events + [P.Lock(i)] + [P.Read(i)] == events + [P.Lock(i), P.Read(i)];
  }

  // It posts its one row and finds no idle rent.
  lemma Posts<S, R, M>(sim: P.Sim<S, R, M>, start: P.Book<S>, events: seq<P.Event>, locking: bool, s: P.State<S, R, M>,
                       i: nat, x: R)
    requires Leads(sim, start, events, locking, s) && i < |s.actors| && s.actors[i].stage.Posting?
    requires s.actors[i].stage.todo == [x] && s.actors[i].stage.posted == []
    requires sim.rent(s.book.rows, P.WindowOf(s.actors[i])) == []
    ensures var t := s.actors[i].stage;
            Leads(sim, start, events + [P.Post(i), P.Advance(i)], locking,
                  P.At(s, i, P.Advanced(t.from, t.seen, t.at, |s.log|, [x], s.book.clock < s.actors[i].target)))
  {
    var t := s.actors[i].stage;
    assert [x][1..] == [] && [] + [x] == [x] && [x] + [] == [x];
    var posted := P.At(s, i, P.Posting(t.from, t.seen, t.at, [], [x]));
    GoOn(sim, start, events, locking, s, P.Post(i), posted);
    var advanced := P.Advanced(t.from, t.seen, t.at, |s.log|, [x], s.book.clock < s.actors[i].target);
    assert P.At(posted, i, advanced) == P.At(s, i, advanced);
    GoOn(sim, start, events + [P.Post(i)], locking, posted, P.Advance(i), P.At(posted, i, advanced));
    assert events + [P.Post(i)] + [P.Advance(i)] == events + [P.Post(i), P.Advance(i)];
  }

  // ----- without the advisory lock

  const UNLOCKED := [P.Arrive(5), P.Arrive(5)] + [P.Lock(0), P.Read(0)] + [P.Lock(1), P.Read(1)]
                    + [P.Post(0), P.Advance(0)] + [P.Commit(0)] + [P.Post(1), P.Advance(1)] + [P.Commit(1)]

  // A simulation whose rows are the windows posted for.
  function Echo(): P.Sim<seq<Window>, Window, int> {
    P.Sim((rows: seq<Window>, w: Window) => [w], (rows: seq<Window>, w: Window) => [],
          (seen: seq<Window>, posted: seq<Window>, rows: seq<Window>, w: Window) => rows + posted,
          (w: Window, rows: seq<Window>, failed: bool) => rows, (w: Window) => 0,
          (m: int, rows: seq<Window>, failed: bool) => (m, rows, true))
  }

  const W: Window := P.Window(0, 5)
  const NOTHING: P.Book<seq<Window>> := P.Book(0, [])

  function Two<S, R, M>(book: P.Book<S>, first: P.Stage<S, R, M>, second: P.Stage<S, R, M>): P.State<S, R, M> {
    P.Start(book).(actors := [P.Actor(5, first), P.Actor(5, second)])
  }

  lemma TwoArrive<S, R, M>(sim: P.Sim<S, R, M>, start: P.Book<S>)
    ensures Leads(sim, start, [P.Arrive(5), P.Arrive(5)], false, Two(start, P.Waiting, P.Waiting))
  {
    var s: P.State<S, R, M> := P.Start(start);
    GoOn(sim, start, [], false, s, P.Arrive(5), s.(actors := [P.Actor(5, P.Waiting)]));
    assert [] + [P.Arrive(5)] == [P.Arrive(5)];
    GoOn(sim, start, [P.Arrive(5)], false, s.(actors := [P.Actor(5, P.Waiting)]), P.Arrive(5),
         Two(start, P.Waiting, P.Waiting));
    assert [P.Arrive(5)] + [P.Arrive(5)] == [P.Arrive(5), P.Arrive(5)];
  }

  lemma BothRead(reading: P.Stage<seq<Window>, Window, int>)
    requires reading == P.Posting(0, [], 0, [W], [])
    ensures Leads(Echo(), NOTHING, [P.Arrive(5), P.Arrive(5)] + [P.Lock(0), P.Read(0)] + [P.Lock(1), P.Read(1)], false,
                  Two(NOTHING, reading, reading))
  {
    var both := [P.Arrive(5), P.Arrive(5)];
    TwoArrive(Echo(), NOTHING);
    Reads(Echo(), NOTHING, both, false, Two(NOTHING, P.Waiting, P.Waiting), 0);
    assert P.At(Two<seq<Window>, Window, int>(NOTHING, P.Waiting, P.Waiting), 0, reading)
        == Two(NOTHING, reading, P.Waiting);
    Reads(Echo(), NOTHING, both + [P.Lock(0), P.Read(0)], false, Two(NOTHING, reading, P.Waiting), 1);
    assert P.At(Two<seq<Window>, Window, int>(NOTHING, reading, P.Waiting), 1, reading)
        == Two(NOTHING, reading, reading);
  }

  lemma FirstPosts(reading: P.Stage<seq<Window>, Window, int>, events: seq<P.Event>)
    requires reading == P.Posting(0, [], 0, [W], [])
    requires Leads(Echo(), NOTHING, events, false, Two(NOTHING, reading, reading))
    ensures Leads(Echo(), NOTHING, events + [P.Post(0), P.Advance(0)] + [P.Commit(0)], false,
                  Two(NOTHING, P.Checking(0, true), reading).(book := P.Book(5, [W]), log := [P.Posted(W, 0, 0)]))
  {
    var advanced: P.Stage<seq<Window>, Window, int> := P.Advanced(0, [], 0, 0, [W], true);
    Posts(Echo(), NOTHING, events, false, Two(NOTHING, reading, reading), 0, W);
    assert P.At(Two(NOTHING, reading, reading), 0, advanced) == Two(NOTHING, advanced, reading);
    assert [] + [W] == [W];
    GoOn(Echo(), NOTHING, events + [P.Post(0), P.Advance(0)], false, Two(NOTHING, advanced, reading), P.Commit(0),
         Two(NOTHING, P.Checking(0, true), reading).(book := P.Book(5, [W]), log := [P.Posted(W, 0, 0)]));
  }

  lemma SecondPosts(s: P.State<seq<Window>, Window, int>, events: seq<P.Event>)
    requires s == Two(NOTHING, P.Checking(0, true), P.Posting(0, [], 0, [W], []))
                  .(book := P.Book(5, [W]), log := [P.Posted(W, 0, 0)])
    requires Leads(Echo(), NOTHING, events, false, s)
    ensures P.IsRun(Echo(), P.Start(NOTHING), events + [P.Post(1), P.Advance(1)] + [P.Commit(1)], false)
    ensures P.After(Echo(), P.Start(NOTHING), events + [P.Post(1), P.Advance(1)] + [P.Commit(1)], false).book
            == P.Book(5, [W, W])
  {
    Posts(Echo(), NOTHING, events, false, s, 1, W);
    var advanced := P.At(s, 1, P.Advanced(0, [], 0, 1, [W], false));
    assert [W] + [W] == [W, W];
    GoOn(Echo(), NOTHING, events + [P.Post(1), P.Advance(1)], false, advanced, P.Commit(1),
         P.Step(Echo(), advanced, P.Commit(1), false));
  }

  /** The guard on the clock is not enough: without the lock two calls that read the same clock both post the
      window's rows, although the clock moves once. */
  lemma WithoutTheLockAWindowIsPostedTwice()
    ensures P.IsRun(Echo(), P.Start(NOTHING), UNLOCKED, false)
    ensures P.After(Echo(), P.Start(NOTHING), UNLOCKED, false).book == P.Book(5, [W, W])
  {
    var reading: P.Stage<seq<Window>, Window, int> := P.Posting(0, [], 0, [W], []);
    var read := [P.Arrive(5), P.Arrive(5)] + [P.Lock(0), P.Read(0)] + [P.Lock(1), P.Read(1)];
    BothRead(reading);
    FirstPosts(reading, read);
    SecondPosts(Two(NOTHING, P.Checking(0, true), reading).(book := P.Book(5, [W]), log := [P.Posted(W, 0, 0)]),
                read + [P.Post(0), P.Advance(0)] + [P.Commit(0)]);
  }

  // ----- with it

  function Turn(i: nat): seq<P.Event> {
    [P.Lock(i), P.Read(i)] + [P.Post(i), P.Advance(i)] + [P.Commit(i)]
  }

  // The second call reads, posts and commits its window before the first has come to its bankruptcy check.
  const OVERTAKEN := [P.Arrive(5)] + Turn(0) + [P.Arrive(9)] + Turn(1) + [P.Check(0, false)] + [P.Check(1, false)]

  const V: Window := P.Window(5, 9)

  // A call nobody interrupts takes its window from the lock to the commit.
  lemma TakesTurn<S, R, M>(sim: P.Sim<S, R, M>, start: P.Book<S>, events: seq<P.Event>, s: P.State<S, R, M>, i: nat,
                           x: R, w: Window)
    requires Leads(sim, start, events, true, s) && i < |s.actors| && s.actors[i].stage.Waiting? && s.lock.None?
    requires w == P.Window(s.book.clock, s.actors[i].target) && w.from < w.to
    requires sim.routes(s.book.rows, w) == [x] && sim.rent(s.book.rows, w) == []
    ensures Leads(sim, start, events + Turn(i), true,
                  P.At(s.(book := P.Book(w.to, sim.install(s.book.rows, [x], s.book.rows, w)),
                          log := s.log + [P.Posted(w, |s.log|, |s.log|)]), i, P.Checking(w.from, true)))
  {
    var n := |s.log|;
    var held := s.(lock := Some(i));
    Reads(sim, start, events, true, s, i);
    var posting := P.At(held, i, P.Posting(w.from, s.book.rows, n, [x], []));
    Posts(sim, start, events + [P.Lock(i), P.Read(i)], true, posting, i, x);
    var advanced := P.At(held, i, P.Advanced(w.from, s.book.rows, n, n, [x], true));
    assert P.At(posting, i, P.Advanced(w.from, s.book.rows, n, n, [x], true)) == advanced;
    Commits(sim, s, i, x, w);
    GoOn(sim, start, events + [P.Lock(i), P.Read(i)] + [P.Post(i), P.Advance(i)], true, advanced, P.Commit(i),
         P.Step(sim, advanced, P.Commit(i), true));
    assert events + [P.Lock(i), P.Read(i)] + [P.Post(i), P.Advance(i)] + [P.Commit(i)] == events + Turn(i);
  }

  lemma Commits<S, R, M>(sim: P.Sim<S, R, M>, s: P.State<S, R, M>, i: nat, x: R, w: Window)
    requires i < |s.actors| && s.lock.None? && w.to == s.actors[i].target
    ensures var advanced := P.At(s.(lock := Some(i)), i, P.Advanced(w.from, s.book.rows, |s.log|, |s.log|, [x], true));
            && P.Enabled(advanced, P.Commit(i), true)
            && P.Step(sim, advanced, P.Commit(i), true)
               == P.At(s.(book := P.Book(w.to, sim.install(s.book.rows, [x], s.book.rows, w)),
                          log := s.log + [P.Posted(w, |s.log|, |s.log|)]), i, P.Checking(w.from, true))
  {
  }

  // Each window posts one row; `rows1` and `rows2` are what the first and the second leave.
  ghost predicate OneRowEach<S, R, M>(sim: P.Sim<S, R, M>, rows: S, x: R, rows1: S, y: R, rows2: S) {
    && sim.routes(rows, W) == [x] && sim.rent(rows, W) == [] && rows1 == sim.install(rows, [x], rows, W)
    && sim.routes(rows1, V) == [y] && sim.rent(rows1, V) == [] && rows2 == sim.install(rows1, [y], rows1, V)
  }

  lemma FirstWindow<S, R, M>(sim: P.Sim<S, R, M>, rows: S, x: R, rows1: S, y: R, rows2: S)
    requires OneRowEach(sim, rows, x, rows1, y, rows2)
    ensures Leads(sim, P.Book(0, rows), [P.Arrive(5)] + Turn(0) + [P.Arrive(9)], true,
                  P.State(P.Book(5, rows1), None, [P.Actor(5, P.Checking(0, true)), P.Actor(9, P.Waiting)],
                          [P.Posted(W, 0, 0)], []))
  {
    var start := P.Book(0, rows);
    var s: P.State<S, R, M> := P.Start(start);
    var arrived := s.(actors := [P.Actor(5, P.Waiting)]);
    GoOn(sim, start, [], true, s, P.Arrive(5), arrived);
    assert [] + [P.Arrive(5)] == [P.Arrive(5)];
    TakesTurn(sim, start, [P.Arrive(5)], arrived, 0, x, W);
    var flown := P.State(P.Book(5, rows1), None, [P.Actor(5, P.Checking(0, true))], [P.Posted(W, 0, 0)], []);
    assert [] + [P.Posted(W, 0, 0)] == [P.Posted(W, 0, 0)];
    assert P.At(arrived.(book := P.Book(5, rows1), log := [P.Posted(W, 0, 0)]), 0, P.Checking(0, true)) == flown;
    GoOn(sim, start, [P.Arrive(5)] + Turn(0), true, flown, P.Arrive(9),
         flown.(actors := [P.Actor(5, P.Checking(0, true)), P.Actor(9, P.Waiting)]));
  }

  function BothUnchecked<S, R, M>(rows: S): P.State<S, R, M> {
    P.State(P.Book(9, rows), None, [P.Actor(5, P.Checking(0, true)), P.Actor(9, P.Checking(5, true))],
            [P.Posted(W, 0, 0), P.Posted(V, 1, 1)], [])
  }

  lemma SecondWindow<S, R, M>(sim: P.Sim<S, R, M>, rows: S, x: R, rows1: S, y: R, rows2: S)
    requires OneRowEach(sim, rows, x, rows1, y, rows2)
    ensures Leads(sim, P.Book(0, rows), [P.Arrive(5)] + Turn(0) + [P.Arrive(9)] + Turn(1), true, BothUnchecked(rows2))
  {
    FirstWindow(sim, rows, x, rows1, y, rows2);
    var s := P.State(P.Book(5, rows1), None, [P.Actor(5, P.Checking(0, true)), P.Actor(9, P.Waiting)],
                     [P.Posted(W, 0, 0)], []);
    TakesTurn(sim, P.Book(0, rows), [P.Arrive(5)] + Turn(0) + [P.Arrive(9)], s, 1, y, V);
    assert [P.Posted(W, 0, 0)] + [P.Posted(V, 1, 1)] == [P.Posted(W, 0, 0), P.Posted(V, 1, 1)];
    assert P.At(s.(book := P.Book(9, rows2), log := [P.Posted(W, 0, 0), P.Posted(V, 1, 1)]), 1, P.Checking(5, true))
        == BothUnchecked(rows2);
  }

  const LATE_CHECKS := [P.Posted(W, 0, 0), P.Posted(V, 1, 1), P.Checked(W, false), P.Checked(V, false)]

  lemma BothCheck<S, R, M>(sim: P.Sim<S, R, M>, rows: S)
    ensures var s: P.State<S, R, M> := BothUnchecked(rows);
            P.Enabled(s, P.Check(0, false), true)
            && var s1 := P.Step(sim, s, P.Check(0, false), true);
               P.Enabled(s1, P.Check(1, false), true)
               && var s2 := P.Step(sim, s1, P.Check(1, false), true);
                  s2.book == P.Book(9, sim.check(V, sim.check(W, rows, false), false)) && s2.log == LATE_CHECKS
  {
  }

  lemma ChecksComeLate<S, R, M>(sim: P.Sim<S, R, M>, rows: S, x: R, rows1: S, y: R, rows2: S)
    requires OneRowEach(sim, rows, x, rows1, y, rows2)
    ensures P.IsRun(sim, P.Start(P.Book(0, rows)), OVERTAKEN, true)
    ensures P.After(sim, P.Start(P.Book(0, rows)), OVERTAKEN, true).book
            == P.Book(9, sim.check(V, sim.check(W, rows2, false), false))
    ensures P.After(sim, P.Start(P.Book(0, rows)), OVERTAKEN, true).log == LATE_CHECKS
  {
    var start := P.Book(0, rows);
    var events := [P.Arrive(5)] + Turn(0) + [P.Arrive(9)] + Turn(1);
    var s: P.State<S, R, M> := BothUnchecked(rows2);
    SecondWindow(sim, rows, x, rows1, y, rows2);
    BothCheck(sim, rows2);
    var s1 := P.Step(sim, s, P.Check(0, false), true);
    GoOn(sim, start, events, true, s, P.Check(0, false), s1);
    GoOn(sim, start, events + [P.Check(0, false)], true, s1, P.Check(1, false),
         P.Step(sim, s1, P.Check(1, false), true));
  }

  // ----- the engine's settlement

  // The bankruptcy check (apps/api/internal/engine/simulation.go:525-533); a failed read or transaction skips it.
  function CheckCash(threshold: int, a: Airline, failed: bool): Airline {
    if !failed && a.account.balance <= threshold then GoBankrupt(a) else a
  }

  // The parts of the day boundary, each taken as one statement.
  function SettlePart(days: int, part: int, a: Airline, failed: bool): (int, Airline, bool) {
    (part + 1,
     if failed then a
     else if part == 0 then Serve(LOAN_SERVICE, a)
     else if part == 1 then Serve(FINANCING_SERVICE, a)
     else CountNegativeDay(a, days),
     part >= 2)
  }

  function Install(a: Airline, postings: seq<Posting>): Airline {
    var posted := Post(a, postings, NO_FAULTS);
    if posted.Some? then posted.value else a
  }

  // What windows read of an airline.
  datatype Flights = Flights(fleet: seq<Aircraft>, onRoute: set<nat>, bankrupt: bool)

  function FlightsOf(a: Airline): Flights {
    Flights(a.fleet, a.onRoute, a.bankrupt)
  }

  function Worn(a: Airline, fleet: seq<Aircraft>): Airline {
    a.(fleet := fleet)
  }

  // What the airline's routes and idle aircraft post and how its fleet wears, and the two bankruptcy thresholds.
  datatype Business = Business(
    earn: (Flights, Window) -> seq<Posting>, idle: (Flights, Window) -> seq<Posting>,
    wear: (Flights, seq<Aircraft>, Window) -> seq<Aircraft>, threshold: int, days: int)

  // Its windows, with the engine's check and day boundary.
  function Flying(b: Business): P.Sim<Airline, Posting, int> {
    P.Sim((a: Airline, w: Window) => b.earn(FlightsOf(a), w), (a: Airline, w: Window) => b.idle(FlightsOf(a), w),
          (seen: Airline, postings: seq<Posting>, a: Airline, w: Window) =>
            Worn(Install(a, postings), b.wear(FlightsOf(seen), Install(a, postings).fleet, w)),
          (w: Window, a: Airline, failed: bool) => CheckCash(b.threshold, a, failed), (w: Window) => 0,
          (part: int, a: Airline, failed: bool) => SettlePart(b.days, part, a, failed))
  }

  function Fares(revenue: nat, bankrupt: bool): seq<Posting> {
    if bankrupt then [] else [Posting(TicketRevenue, revenue as real)]
  }

  // An airline that earns `revenue` a window until it is bankrupt.
  function Earning(revenue: nat, threshold: int, days: int): P.Sim<Airline, Posting, int> {
    Flying(Business((seen: Flights, w: Window) => Fares(revenue, seen.bankrupt), (seen: Flights, w: Window) => [],
                    (seen: Flights, fleet: seq<Aircraft>, w: Window) => fleet, threshold, days))
  }

  lemma EarningReads(revenue: nat, threshold: int, days: int, seen: Airline,
                     postings: seq<Posting>, a: Airline, w: Window)
    ensures var sim := Earning(revenue, threshold, days);
            && sim.routes(a, w) == Fares(revenue, a.bankrupt)
            && sim.rent(a, w) == [] && sim.install(seen, postings, a, w) == Install(a, postings)
  {
    var b, seen' := Install(a, postings), FlightsOf(a);
    assert Worn(b, b.fleet) == b;
    assert Earning(revenue, threshold, days).routes(a, w) == Fares(revenue, seen'.bankrupt);
  }

  /** A call run alone to its end is the window, the check and the day boundary. */
  lemma AloneIsTheDay(a: Airline, clock: int, w: Window, revenue: nat, threshold: int, days: int)
    requires clock < w.to && !a.bankrupt
    ensures var flown := Install(a, [Posting(TicketRevenue, revenue as real)]);
            C.Alone(Earning(revenue, threshold, days), P.Book(clock, a), C.Call(w, Some(false), [false, false, false]))
            == P.Book(w.to, D.DayBoundary(CheckCash(threshold, flown, false), days))
  {
    var sim := Earning(revenue, threshold, days);
    var b := CheckCash(threshold, Install(a, [Posting(TicketRevenue, revenue as real)]), false);
    var posted: seq<Posting> := [Posting(TicketRevenue, revenue as real)];
    assert posted + [] == posted;
    EarningReads(revenue, threshold, days, a, posted, a, P.Window(clock, w.to));
    var f := [false, false, false];
    assert f[..2][..1] == [false] && f[..1][..0] == [];
    assert C.SettleAll(sim, 0, b, f[..1]) == (1, Serve(LOAN_SERVICE, b));
    assert C.SettleAll(sim, 0, b, f[..2]) == (2, Serve(FINANCING_SERVICE, Serve(LOAN_SERVICE, b)));
  }

  // A call that crosses into another day, with nobody else about.
  function Alone(to: int): seq<P.Event> {
    [P.Arrive(to)] + Turn(0) + [P.Check(0, false)] + [P.Settle(0, false)] + [P.Settle(0, false)] + [P.Settle(0, false)]
  }

  // The call after its commit, with the log and the boundaries so far.
  function OnItsOwn(book: P.Book<Airline>, w: Window, stage: P.Stage<Airline, Posting, int>, log: seq<P.Effect>,
                    boundaries: seq<int>): P.State<Airline, Posting, int>
  {
    P.State(book, None, [P.Actor(w.to, stage)], log, boundaries)
  }

  lemma FliesAlone(sim: P.Sim<Airline, Posting, int>, a: Airline, x: Posting, a1: Airline, w: Window)
    requires w.from < w.to && sim.routes(a, w) == [x] && sim.rent(a, w) == [] && a1 == sim.install(a, [x], a, w)
    ensures Leads(sim, P.Book(w.from, a), [P.Arrive(w.to)] + Turn(0), true,
                  OnItsOwn(P.Book(w.to, a1), w, P.Checking(w.from, true), [P.Posted(w, 0, 0)], []))
  {
    var start := P.Book(w.from, a);
    var s: P.State<Airline, Posting, int> := P.Start(start);
    var arrived := s.(actors := [P.Actor(w.to, P.Waiting)]);
    GoOn(sim, start, [], true, s, P.Arrive(w.to), arrived);
    assert [] + [P.Arrive(w.to)] == [P.Arrive(w.to)];
    TakesTurn(sim, start, [P.Arrive(w.to)], arrived, 0, x, w);
    assert [] + [P.Posted(w, 0, 0)] == [P.Posted(w, 0, 0)];
    assert P.At(arrived.(book := P.Book(w.to, a1), log := [P.Posted(w, 0, 0)]), 0, P.Checking(w.from, true))
        == OnItsOwn(P.Book(w.to, a1), w, P.Checking(w.from, true), [P.Posted(w, 0, 0)], []);
  }

  lemma ChecksAlone(sim: P.Sim<Airline, Posting, int>, rows: Airline, w: Window, log: seq<P.Effect>)
    requires sim.begin(w) == 0
    ensures var s := OnItsOwn(P.Book(w.to, rows), w, P.Checking(w.from, true), log, []);
            && P.Enabled(s, P.Check(0, false), true)
            && var checked, book := log + [P.Checked(w, false)], P.Book(w.to, sim.check(w, rows, false));
               P.Step(sim, s, P.Check(0, false), true)
               == if P.Day(w.from) != P.Day(w.to) then OnItsOwn(book, w, P.Settling(w.from, 0), checked, [w.to])
                  else OnItsOwn(book, w, P.Done(true), checked, [])
  {
  }

  lemma SettlesAlone(sim: P.Sim<Airline, Posting, int>, rows: Airline, w: Window, part: int, log: seq<P.Effect>)
    ensures var s := OnItsOwn(P.Book(w.to, rows), w, P.Settling(w.from, part), log, [w.to]);
            && P.Enabled(s, P.Settle(0, false), true)
            && var (part', rows', last) := sim.settle(part, rows, false);
               P.Step(sim, s, P.Settle(0, false), true)
               == OnItsOwn(P.Book(w.to, rows'), w, if last then P.Done(true) else P.Settling(w.from, part'),
                           log + [P.Settled(w, false)], [w.to])
  {
  }

  lemma AloneSettles(sim: P.Sim<Airline, Posting, int>, start: P.Book<Airline>, events: seq<P.Event>, rows: Airline,
                     w: Window, log: seq<P.Effect>, days: int)
    requires Leads(sim, start, events, true,
                   OnItsOwn(P.Book(w.to, rows), w, P.Settling(w.from, 0), log, [w.to]))
    requires forall part, a :: sim.settle(part, a, false) == SettlePart(days, part, a, false)
    ensures var settled := P.Settled(w, false);
            Leads(sim, start, events + [P.Settle(0, false)] + [P.Settle(0, false)] + [P.Settle(0, false)], true,
                  OnItsOwn(P.Book(w.to, D.DayBoundary(rows, days)), w, P.Done(true),
                           log + [settled] + [settled] + [settled], [w.to]))
  {
    var e, settled := P.Settle(0, false), P.Settled(w, false);
    var rows1 := Serve(LOAN_SERVICE, rows);
    var rows2 := Serve(FINANCING_SERVICE, rows1);
    SettlesAlone(sim, rows, w, 0, log);
    var s1 := OnItsOwn(P.Book(w.to, rows1), w, P.Settling(w.from, 1), log + [settled], [w.to]);
    GoOn(sim, start, events, true, OnItsOwn(P.Book(w.to, rows), w, P.Settling(w.from, 0), log, [w.to]), e, s1);
    SettlesAlone(sim, rows1, w, 1, log + [settled]);
    var s2 := OnItsOwn(P.Book(w.to, rows2), w, P.Settling(w.from, 2), log + [settled] + [settled], [w.to]);
    GoOn(sim, start, events + [e], true, s1, e, s2);
    SettlesAlone(sim, rows2, w, 2, log + [settled] + [settled]);
    GoOn(sim, start, events + [e] + [e], true, s2, e,
         OnItsOwn(P.Book(w.to, D.DayBoundary(rows, days)), w, P.Done(true), log + [settled] + [settled] + [settled],
                  [w.to]));
  }

  /** And that is a run: a call nobody disturbs takes the lock, posts its window, checks the cash and, in another day,
      goes through the whole day boundary before it is done. */
  lemma AloneRunIsTheDay(a: Airline, w: Window, revenue: nat, threshold: int, days: int)
    requires w.from < w.to && P.Day(w.from) != P.Day(w.to) && !a.bankrupt
    ensures var sim, start := Earning(revenue, threshold, days), P.Book(w.from, a);
            var flown := Install(a, [Posting(TicketRevenue, revenue as real)]);
            && P.IsRun(sim, P.Start(start), Alone(w.to), true)
            && var s := P.After(sim, P.Start(start), Alone(w.to), true);
               && s.book == P.Book(w.to, D.DayBoundary(CheckCash(threshold, flown, false), days))
               && s.lock.None? && s.actors == [P.Actor(w.to, P.Done(true))] && s.boundaries == [w.to]
  {
    var sim, start, x := Earning(revenue, threshold, days), P.Book(w.from, a), Posting(TicketRevenue, revenue as real);
    var flown, posted := Install(a, [x]), [P.Posted(w, 0, 0)];
    var checked := CheckCash(threshold, flown, false);
    EarningReads(revenue, threshold, days, a, [x], a, w);
    FliesAlone(sim, a, x, flown, w);
    ChecksAlone(sim, flown, w, posted);
    GoOn(sim, start, [P.Arrive(w.to)] + Turn(0), true,
         OnItsOwn(P.Book(w.to, flown), w, P.Checking(w.from, true), posted, []), P.Check(0, false),
         OnItsOwn(P.Book(w.to, checked), w, P.Settling(w.from, 0), posted + [P.Checked(w, false)], [w.to]));
    AloneSettles(sim, start, [P.Arrive(w.to)] + Turn(0) + [P.Check(0, false)], checked, w,
                 posted + [P.Checked(w, false)], days);
  }

  lemma RevenueIsPosted(a: Airline, revenue: nat)
    requires revenue > 0
    ensures var a' := Install(a, [Posting(TicketRevenue, revenue as real)]);
            && a' == a.(account := a'.account) && a'.account.balance == a.account.balance + revenue
  {
    RoundWhole(revenue);
    var postings := [Posting(TicketRevenue, revenue as real)];
    assert postings[..0] == [];
    assert Post(a, postings[..0], NO_FAULTS) == Some(a);
    assert Post(a, postings, NO_FAULTS)
        == ApplyTx(a, revenue as real, Credit, false, "revenue", "ticket_revenue", false);
  }

  lemma LateChecksAreTheCalls()
    ensures C.Calls(LATE_CHECKS) == [C.Call(W, Some(false), []), C.Call(V, Some(false), [])]
  {
    assert LATE_CHECKS[..3][..2] == LATE_CHECKS[..2] && LATE_CHECKS[..2][..1] == LATE_CHECKS[..1];
    assert LATE_CHECKS[..1][..0] == [] && LATE_CHECKS[..4] == LATE_CHECKS;
    assert C.Calls(LATE_CHECKS[..1]) == [C.Call(W, None, [])];
    assert C.Calls(LATE_CHECKS[..2]) == [C.Call(W, None, []), C.Call(V, None, [])];
    assert C.Calls(LATE_CHECKS[..3]) == [C.Call(W, Some(false), []), C.Call(V, None, [])];
  }

  lemma BankruptEarnsNothing(a: Airline, revenue: nat, threshold: int, days: int)
    requires revenue > 0 && !a.bankrupt && a.account.balance + revenue <= threshold
    ensures C.Serial(Earning(revenue, threshold, days), P.Book(0, a), C.Calls(LATE_CHECKS)).rows.account.balance
            == a.account.balance + revenue
  {
    var sim := Earning(revenue, threshold, days);
    var c, d := C.Call(W, Some(false), []), C.Call(V, Some(false), []);
    RevenueIsPosted(a, revenue);
    var posted: seq<Posting> := [Posting(TicketRevenue, revenue as real)];
    assert posted + [] == posted;
    EarningReads(revenue, threshold, days, a, posted, a, W);
    var one := C.Alone(sim, P.Book(0, a), c);
    assert one.rows.bankrupt && one.rows.account.balance == a.account.balance + revenue;
    var none: seq<Posting> := [];
    assert none + none == [];
    assert Install(one.rows, none) == one.rows;
    EarningReads(revenue, threshold, days, one.rows, none, one.rows, V);
    LateChecksAreTheCalls();
    assert [c, d][..1] == [c] && [c][..0] == [];
    assert C.Serial(sim, P.Book(0, a), [c]) == one;
  }

  /** With the lock in place an overtaking call still earns what the call it overtakes would have denied it: any
      airline brought to the bankruptcy threshold by one window is paid for the next, because its routes were read
      before the check. */
  lemma LateCheckPaysAnotherWindow(a: Airline, revenue: nat, threshold: int, days: int)
    requires revenue > 0 && !a.bankrupt && a.account.balance + revenue <= threshold
    ensures var sim, start := Earning(revenue, threshold, days), P.Book(0, a);
            && P.IsRun(sim, P.Start(start), OVERTAKEN, true)
            && var s := P.After(sim, P.Start(start), OVERTAKEN, true);
               && s.book.rows.account.balance == a.account.balance + 2 * revenue
               && C.Serial(sim, start, C.Calls(s.log)).rows.account.balance == a.account.balance + revenue
  {
    var sim := Earning(revenue, threshold, days);
    var x := Posting(TicketRevenue, revenue as real);
    RevenueIsPosted(a, revenue);
    var a1 := Install(a, [x]);
    RevenueIsPosted(a1, revenue);
    var a2 := Install(a1, [x]);
    EarningReads(revenue, threshold, days, a, [x], a, W);
    EarningReads(revenue, threshold, days, a1, [x], a1, V);
    assert OneRowEach(sim, a, x, a1, x, a2);
    ChecksComeLate(sim, a, x, a1, x, a2);
    BankruptEarnsNothing(a, revenue, threshold, days);
  }

  const DAY: Window := P.Window(0, 24)
  const NEXT: Window := P.Window(24, 28)

  // The first call serves its loans after the second has committed the next window.
  const SERVED_LATE := [P.Arrive(24)] + Turn(0) + [P.Check(0, false)] + [P.Arrive(28)] + Turn(1) + [P.Check(1, false)]
                       + [P.Settle(0, false)]

  const LATE_SERVICE := [P.Posted(DAY, 0, 0), P.Checked(DAY, false), P.Posted(NEXT, 2, 2), P.Checked(NEXT, false)]
                        + [P.Settled(DAY, false)]

  // Each window posts one row and neither check finds anything; `a1` and `a2` are what the windows leave.
  ghost predicate Uneventful<S, R>(sim: P.Sim<S, R, int>, a: S, x: R, a1: S, y: R, a2: S) {
    && sim.routes(a, DAY) == [x] && sim.rent(a, DAY) == [] && a1 == sim.install(a, [x], a, DAY)
    && sim.check(DAY, a1, false) == a1 && sim.begin(DAY) == 0
    && sim.routes(a1, NEXT) == [y] && sim.rent(a1, NEXT) == [] && a2 == sim.install(a1, [y], a1, NEXT)
    && sim.check(NEXT, a2, false) == a2
  }

  // The first call is checked and has its day boundary before it, with n of the effects behind it.
  function Unserved<S, R>(book: P.Book<S>, n: nat, others: seq<P.Actor<S, R, int>>): P.State<S, R, int>
    requires n <= |LATE_SERVICE|
  {
    P.State(book, None, [P.Actor(24, P.Settling(0, 0))] + others, LATE_SERVICE[..n], [24])
  }

  lemma DayIsFlown<S, R>(sim: P.Sim<S, R, int>, a: S, x: R, a1: S, y: R, a2: S)
    requires Uneventful(sim, a, x, a1, y, a2)
    ensures Leads(sim, P.Book(0, a), [P.Arrive(24)] + Turn(0) + [P.Check(0, false)] + [P.Arrive(28)], true,
                  Unserved(P.Book(24, a1), 2, [P.Actor(28, P.Waiting)]))
  {
    var start := P.Book(0, a);
    var s: P.State<S, R, int> := P.Start(start);
    var arrived := s.(actors := [P.Actor(24, P.Waiting)]);
    GoOn(sim, start, [], true, s, P.Arrive(24), arrived);
    assert [] + [P.Arrive(24)] == [P.Arrive(24)];
    TakesTurn(sim, start, [P.Arrive(24)], arrived, 0, x, DAY);
    var flown := P.State(P.Book(24, a1), None, [P.Actor(24, P.Checking(0, true))], [P.Posted(DAY, 0, 0)], []);
    assert [] + [P.Posted(DAY, 0, 0)] == [P.Posted(DAY, 0, 0)];
    assert P.At(arrived.(book := P.Book(24, a1), log := [P.Posted(DAY, 0, 0)]), 0, P.Checking(0, true)) == flown;
    var unserved: P.State<S, R, int> := Unserved(P.Book(24, a1), 2, []);
    DayIsChecked(sim, a1);
    GoOn(sim, start, [P.Arrive(24)] + Turn(0), true, flown, P.Check(0, false), unserved);
    GoOn(sim, start, [P.Arrive(24)] + Turn(0) + [P.Check(0, false)], true, unserved, P.Arrive(28),
         Unserved(P.Book(24, a1), 2, [P.Actor(28, P.Waiting)]));
  }

  lemma DayIsChecked<S, R>(sim: P.Sim<S, R, int>, a1: S)
    requires sim.check(DAY, a1, false) == a1 && sim.begin(DAY) == 0
    ensures var flown: P.State<S, R, int> :=
              P.State(P.Book(24, a1), None, [P.Actor(24, P.Checking(0, true))], [P.Posted(DAY, 0, 0)], []);
            P.Enabled(flown, P.Check(0, false), true)
            && P.Step(sim, flown, P.Check(0, false), true) == Unserved(P.Book(24, a1), 2, [])
  {
    assert [P.Posted(DAY, 0, 0)] + [P.Checked(DAY, false)] == LATE_SERVICE[..2];
  }

  lemma ServiceComesLate<S, R>(sim: P.Sim<S, R, int>, a: S, x: R, a1: S, y: R, a2: S)
    requires Uneventful(sim, a, x, a1, y, a2)
    ensures P.IsRun(sim, P.Start(P.Book(0, a)), SERVED_LATE, true)
    ensures P.After(sim, P.Start(P.Book(0, a)), SERVED_LATE, true).book == P.Book(28, sim.settle(0, a2, false).1)
    ensures P.After(sim, P.Start(P.Book(0, a)), SERVED_LATE, true).log == LATE_SERVICE
  {
    var start := P.Book(0, a);
    var events := [P.Arrive(24)] + Turn(0) + [P.Check(0, false)] + [P.Arrive(28)];
    DayIsFlown(sim, a, x, a1, y, a2);
    TakesTurn(sim, start, events, Unserved(P.Book(24, a1), 2, [P.Actor(28, P.Waiting)]), 1, y, NEXT);
    var s: P.State<S, R, int> := Unserved(P.Book(28, a2), 3, [P.Actor(28, P.Checking(24, true))]);
    assert LATE_SERVICE[..2] + [P.Posted(NEXT, 2, 2)] == LATE_SERVICE[..3];
    assert P.At(Unserved(P.Book(28, a2), 3, [P.Actor(28, P.Waiting)]), 1, P.Checking(24, true)) == s;
    BothEnd(sim, a2);
    var s1 := P.Step(sim, s, P.Check(1, false), true);
    GoOn(sim, start, events + Turn(1), true, s, P.Check(1, false), s1);
    GoOn(sim, start, events + Turn(1) + [P.Check(1, false)], true, s1, P.Settle(0, false),
         P.Step(sim, s1, P.Settle(0, false), true));
  }

  lemma BothEnd<S, R>(sim: P.Sim<S, R, int>, a2: S)
    requires sim.check(NEXT, a2, false) == a2
    ensures var s: P.State<S, R, int> := Unserved(P.Book(28, a2), 3, [P.Actor(28, P.Checking(24, true))]);
            P.Enabled(s, P.Check(1, false), true)
            && var s1 := P.Step(sim, s, P.Check(1, false), true);
               P.Enabled(s1, P.Settle(0, false), true)
               && var s2 := P.Step(sim, s1, P.Settle(0, false), true);
                  s2.book == P.Book(28, sim.settle(0, a2, false).1) && s2.log == LATE_SERVICE
  {
    assert LATE_SERVICE[..3] + [P.Checked(NEXT, false)] + [P.Settled(DAY, false)] == LATE_SERVICE;
  }

  lemma LateServiceCalls()
    ensures C.Calls(LATE_SERVICE) == [C.Call(DAY, Some(false), [false]), C.Call(NEXT, Some(false), [])]
  {
    var log := LATE_SERVICE;
    assert log[..5] == log && log[..5][..4] == log[..4] && log[..4][..3] == log[..3];
    assert log[..3][..2] == log[..2] && log[..2][..1] == log[..1] && log[..1][..0] == [];
    assert C.Calls(log[..1]) == [C.Call(DAY, None, [])];
    assert C.Calls(log[..2]) == [C.Call(DAY, Some(false), [])];
    assert C.Calls(log[..3]) == [C.Call(DAY, Some(false), []), C.Call(NEXT, None, [])];
    assert C.Calls(log[..4]) == [C.Call(DAY, Some(false), []), C.Call(NEXT, Some(false), [])];
    assert [] + [false] == [false];
  }

  lemma ServedAlone(a: Airline, p: nat)
    requires |a.loans| == 1 && Serves(LOAN_SERVICE, a.loans[0]) && a.loans[0].weekly == p > 0
    ensures |Serve(LOAN_SERVICE, a).loans| == 1
    ensures Serve(LOAN_SERVICE, a).loans[0].missed == a.loans[0].missed + if a.account.balance < p then 1 else 0
    ensures Serve(LOAN_SERVICE, a).bankrupt == a.bankrupt
    ensures a.account.balance < p ==> Serve(LOAN_SERVICE, a).account == a.account
  {
    RoundWhole(a.account.balance);
    RoundWhole(p);
    var (a', cash') := ServeOne(LOAN_SERVICE, a, a.account.balance as real, 0);
    assert ServeFrom(LOAN_SERVICE, a', cash', 1) == a';
  }

  lemma MissesInTurn(a: Airline, revenue: nat, threshold: int, days: int, p: nat)
    requires revenue > 0 && !a.bankrupt && threshold < a.account.balance + revenue < p
    requires |a.loans| == 1 && Serves(LOAN_SERVICE, a.loans[0]) && a.loans[0].weekly == p > 0
    ensures var b := C.Serial(Earning(revenue, threshold, days), P.Book(0, a), C.Calls(LATE_SERVICE)).rows;
            |b.loans| == 1 && b.loans[0].missed == a.loans[0].missed + 1
  {
    var sim := Earning(revenue, threshold, days);
    var c, d := C.Call(DAY, Some(false), [false]), C.Call(NEXT, Some(false), []);
    RevenueIsPosted(a, revenue);
    var posted: seq<Posting> := [Posting(TicketRevenue, revenue as real)];
    assert posted + [] == posted;
    var a1 := Install(a, posted);
    ServedAlone(a1, p);
    EarningReads(revenue, threshold, days, a, posted, a, DAY);
    var one := C.Alone(sim, P.Book(0, a), c);
    assert [false][..0] == [];
    assert C.SettleAll(sim, 0, a1, [false]) == (1, Serve(LOAN_SERVICE, a1));
    assert one == P.Book(24, Serve(LOAN_SERVICE, a1));
    RevenueIsPosted(one.rows, revenue);
    EarningReads(revenue, threshold, days, one.rows, posted, one.rows, NEXT);
    LateServiceCalls();
    assert [c, d][..1] == [c] && [c][..0] == [];
    assert C.Serial(sim, P.Book(0, a), [c]) == one;
  }

  /** And a settlement that comes after the next window can find the money for an installment that was missing when
      it was due: the same loan is paid instead of missed. */
  lemma LateServiceTurnsAMissIntoAPayment(a: Airline, revenue: nat, threshold: int, days: int, p: nat)
    requires revenue > 0 && !a.bankrupt
    requires threshold < a.account.balance + revenue < p <= a.account.balance + 2 * revenue
    requires |a.loans| == 1 && Serves(LOAN_SERVICE, a.loans[0]) && a.loans[0].weekly == p > 0
    ensures var sim, start := Earning(revenue, threshold, days), P.Book(0, a);
            && P.IsRun(sim, P.Start(start), SERVED_LATE, true)
            && var s := P.After(sim, P.Start(start), SERVED_LATE, true);
               var late, serial := s.book.rows, C.Serial(sim, start, C.Calls(s.log)).rows;
               && |late.loans| == 1 && late.loans[0].missed == a.loans[0].missed
               && |serial.loans| == 1 && serial.loans[0].missed == a.loans[0].missed + 1
  {
    var sim := Earning(revenue, threshold, days);
    var x := Posting(TicketRevenue, revenue as real);
    RevenueIsPosted(a, revenue);
    var a1 := Install(a, [x]);
    RevenueIsPosted(a1, revenue);
    var a2 := Install(a1, [x]);
    EarningReads(revenue, threshold, days, a, [x], a, DAY);
    EarningReads(revenue, threshold, days, a1, [x], a1, NEXT);
    ServiceComesLate(sim, a, x, a1, x, a2);
    ServedAlone(a2, p);
    MissesInTurn(a, revenue, threshold, days, p);
  }

  // ----- days on which nothing the windows read is touched

  // No loan that stands for an aircraft is at its last miss.
  predicate NothingToSeize(s: Service, a: Airline) {
    forall i :: 0 <= i < |a.loans| && Serves(s, a.loans[i]) && a.loans[i].collateral.Some? ==>
      a.loans[i].missed + 1 < s.limit
  }

  predicate QuietPart(days: int, part: int, a: Airline) {
    if part == 0 then NothingToSeize(LOAN_SERVICE, a)
    else if part == 1 then NothingToSeize(FINANCING_SERVICE, a)
    else 0 <= a.account.balance || days <= 0 || a.negativeDays + 1 < days
  }

  // The check finds the cash above the threshold, the day boundary no aircraft to seize and no last negative day.
  predicate QuietEffect(b: Business, p: P.Progress<Airline, int>, e: P.Effect) {
    match e
    case Posted(_, _, _) => true
    case Checked(_, failed) => failed || b.threshold < p.book.rows.account.balance
    case Settled(w, failed) => failed || (w.to in p.memory ==> QuietPart(b.days, p.memory[w.to], p.book.rows))
  }

  ghost predicate Quiet(b: Business, start: P.Book<Airline>, log: seq<P.Effect>)
    decreases log
  {
    log == []
    || (Quiet(b, start, log[..|log| - 1])
        && QuietEffect(b, P.Replay(Flying(b), start, log[..|log| - 1]), log[|log| - 1]))
  }

  lemma {:induction false} ServiceSeizesNothing(s: Service, a: Airline, cash: real, id: nat)
    requires forall i :: id <= i < |a.loans| && Serves(s, a.loans[i]) && a.loans[i].collateral.Some? ==>
               a.loans[i].missed + 1 < s.limit
    ensures FlightsOf(ServeFrom(s, a, cash, id)) == FlightsOf(a)
    decreases |a.loans| - id
  {
    if id < |a.loans| {
      var (a', cash') := ServeOne(s, a, cash, id);
      assert FlightsOf(a') == FlightsOf(a);
      ServiceSeizesNothing(s, a', cash', id + 1);
    }
  }

  lemma QuietIsLeftAlone(b: Business, p: P.Progress<Airline, int>, e: P.Effect)
    requires QuietEffect(b, p, e)
    ensures C.LeavesAlone(Flying(b), FlightsOf, p, e)
  {
    var a := p.book.rows;
    if e.Settled? && e.w.to in p.memory && !e.failed {
      if p.memory[e.w.to] == 0 {
        ServiceSeizesNothing(LOAN_SERVICE, a, a.account.balance as real, 0);
      } else if p.memory[e.w.to] == 1 {
        ServiceSeizesNothing(FINANCING_SERVICE, a, a.account.balance as real, 0);
      }
    }
  }

  lemma {:induction false} QuietIsUnseen(b: Business, start: P.Book<Airline>, log: seq<P.Effect>)
    requires Quiet(b, start, log)
    ensures C.Unseen(Flying(b), FlightsOf, start, log)
    decreases log
  {
    if log != [] {
      QuietIsUnseen(b, start, log[..|log| - 1]);
      QuietIsLeftAlone(b, P.Replay(Flying(b), start, log[..|log| - 1]), log[|log| - 1]);
    }
  }

  lemma FlightsAfterInstall(b: Business, seen: Airline, postings: seq<Posting>, a: Airline, w: Window)
    ensures FlightsOf(Flying(b).install(seen, postings, a, w))
            == Flights(b.wear(FlightsOf(seen), a.fleet, w), a.onRoute, a.bankrupt)
  {
    LoanProofs.PostLeavesRest(a, postings, NO_FAULTS);
    assert Install(a, postings).fleet == a.fleet;
    assert Flying(b).install(seen, postings, a, w)
        == Worn(Install(a, postings), b.wear(FlightsOf(seen), Install(a, postings).fleet, w));
  }

  lemma WindowsReadFlights(b: Business)
    ensures C.ReadsOnly(Flying(b), FlightsOf) && C.ChangesBy(Flying(b), FlightsOf)
  {
    forall a, a', c, c', rows, w | FlightsOf(a) == FlightsOf(c) && FlightsOf(a') == FlightsOf(c')
      ensures FlightsOf(Flying(b).install(a, rows, a', w)) == FlightsOf(Flying(b).install(c, rows, c', w))
    {
      FlightsAfterInstall(b, a, rows, a', w);
      FlightsAfterInstall(b, c, rows, c', w);
    }
  }

  /** Loans may be served late, missed and settled between other calls' windows: as long as no check finds the cash at
      the threshold, no last negative day is counted and no aircraft's loan is at its last miss, every window of a run
      posts what it would if there were no loans at all, and leaves the same fleet. */
  lemma QuietDaysPostTheSame(b: Business, start: P.Book<Airline>, events: seq<P.Event>)
    requires P.IsRun(Flying(b), P.Start(start), events, true)
    requires Quiet(b, start, P.After(Flying(b), P.Start(start), events, true).log)
    ensures var s, sim := P.After(Flying(b), P.Start(start), events, true), Flying(b);
            && C.PostedRows(sim, start, s.log) == C.WindowRows(sim, start.rows, P.WindowsOf(s.log))
            && FlightsOf(s.book.rows) == FlightsOf(C.Windows(sim, start.rows, P.WindowsOf(s.log)))
  {
    var s := P.After(Flying(b), P.Start(start), events, true);
    P.RunKeepsInv(Flying(b), start, events);
    QuietIsUnseen(b, start, s.log);
    WindowsReadFlights(b);
    C.WindowsPostTheSame(Flying(b), FlightsOf, start, s.log);
  }
}
