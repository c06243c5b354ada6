/**
 Assigning an aircraft to a route against selling it or ending its lease, at the same time, over PostgreSQL
 READ COMMITTED (apps/api/internal/engine/routes.go, apps/api/internal/engine/fleet.go).

 Every call is an actor with a program counter. A transaction keeps its writes to itself until it commits, each
 statement reads what is committed by then, `FOR UPDATE` locks the aircraft's row and an UPDATE the route's row
 until the transaction ends, and any call can be refused or fail at any point.
 */
module AircraftLock {
  import opened Sequences

  // Remove is a sale or the end of a lease.
  datatype Job =
    | Assign(route: nat, aircraft: nat)
    | Remove(aircraft: nat)
    | Unassign(route: nat)
    | Close(route: nat)

  // Locked: the aircraft's row is held. Checked: no other route has it. Written: the write awaits the commit.
  datatype Stage = Waiting | Locked | Checked | Written | Done(ok: bool)

  datatype Actor = Actor(user: nat, job: Job, stage: Stage)

  datatype Route = Route(owner: nat, aircraft: Option<nat>, cancelled: bool)

  // `fleet` maps an aircraft to its owner; `held` and `rows` map a locked aircraft or route to the actor holding it.
  datatype State = State(
    routes: map<nat, Route>, fleet: map<nat, nat>, held: map<nat, nat>, rows: map<nat, nat>, actors: seq<Actor>)

  datatype Event =
    | Arrive(user: nat, job: Job)
    | Create(user: nat, route: nat)
    | Deliver(user: nat, aircraft: nat)
    | Lock(actor: nat)
    | Check(actor: nat)
    | Write(actor: nat)
    | Commit(actor: nat)
    | Abort(actor: nat)
    | Single(actor: nat)

  predicate Locks(job: Job) {
    job.Assign? || job.Remove?
  }

  predicate InTx(x: Actor) {
    Locks(x.job) && (x.stage.Locked? || x.stage.Checked? || x.stage.Written?)
  }

  // A refusal, a failed statement or commit, or a lost connection ends a call at any stage.
  predicate Enabled(s: State, e: Event, locking: bool) {
    match e
    case Arrive(_, _) => true
    case Create(_, route) => route !in s.routes
    case Deliver(_, aircraft) => aircraft !in s.fleet
    case Lock(i) =>
      i < |s.actors| && Locks(s.actors[i].job) && s.actors[i].stage.Waiting?
      && (locking ==> s.actors[i].job.aircraft !in s.held)
    case Check(i) => i < |s.actors| && Locks(s.actors[i].job) && s.actors[i].stage.Locked?
    case Write(i) =>
      i < |s.actors| && Locks(s.actors[i].job) && s.actors[i].stage.Checked?
      && (s.actors[i].job.Assign? ==> s.actors[i].job.route !in s.rows)
    case Commit(i) => i < |s.actors| && Locks(s.actors[i].job) && s.actors[i].stage.Written?
    case Abort(i) => i < |s.actors| && !s.actors[i].stage.Done?
    case Single(i) =>
      i < |s.actors| && !Locks(s.actors[i].job) && s.actors[i].stage.Waiting? && s.actors[i].job.route !in s.rows
  }

  function At(s: State, i: nat, stage: Stage): State
    requires i < |s.actors|
  {
    s.(actors := s.actors[i := s.actors[i].(stage := stage)])
  }

  // Ends the transaction: every lock the actor holds is released.
  function Finish(s: State, i: nat, ok: bool): State
    requires i < |s.actors|
  {
    At(s.(held := map a | a in s.held && s.held[a] != i :: s.held[a],
          rows := map r | r in s.rows && s.rows[r] != i :: s.rows[r]), i, Done(ok))
  }

  // The check sees only the caller's own routes.
  predicate Taken(s: State, user: nat, job: Job)
    requires Locks(job)
  {
    exists r :: r in s.routes && s.routes[r].owner == user && s.routes[r].aircraft == Some(job.aircraft)
                && (job.Assign? ==> r != job.route)
  }

  // An UPDATE that names its owner changes nothing when the row is someone else's.
  function SetRoute(s: State, user: nat, route: nat, aircraft: Option<nat>, cancelled: bool): map<nat, Route> {
    if route in s.routes && s.routes[route].owner == user
    then s.routes[route := Route(user, aircraft, s.routes[route].cancelled || cancelled)]
    else s.routes
  }

  function Apply(s: State, x: Actor): State {
    match x.job
    case Assign(route, aircraft) => s.(routes := SetRoute(s, x.user, route, Some(aircraft), false))
    case Remove(aircraft) => s.(fleet := s.fleet - {aircraft})
    case Unassign(route) => s.(routes := SetRoute(s, x.user, route, None, false))
    case Close(route) => s.(routes := SetRoute(s, x.user, route, None, true))
  }

  function Step(s: State, e: Event, locking: bool): State
    requires Enabled(s, e, locking)
  {
    match e
    case Arrive(user, job) => s.(actors := s.actors + [Actor(user, job, Waiting)])
    case Create(user, route) => s.(routes := s.routes[route := Route(user, None, false)])
    case Deliver(user, aircraft) => s.(fleet := s.fleet[aircraft := user])
    case Lock(i) =>
      var a := s.actors[i].job.aircraft;
      if a !in s.fleet || s.fleet[a] != s.actors[i].user then At(s, i, Done(false))
      else At(s.(held := if locking then s.held[a := i] else s.held), i, Locked)
    case Check(i) =>
      if Taken(s, s.actors[i].user, s.actors[i].job) then Finish(s, i, false) else At(s, i, Checked)
    case Write(i) =>
      At(if s.actors[i].job.Assign? then s.(rows := s.rows[s.actors[i].job.route := i]) else s, i, Written)
    case Commit(i) => Finish(Apply(s, s.actors[i]), i, true)
    case Abort(i) => Finish(s, i, false)
    case Single(i) => At(Apply(s, s.actors[i]), i, Done(true))
  }

  ghost predicate IsRun(s: State, events: seq<Event>, locking: bool)
    decreases |events|, 0
  {
    events == [] ||
    (IsRun(s, events[..|events| - 1], locking)
     && Enabled(After(s, events[..|events| - 1], locking), events[|events| - 1], locking))
  }

  ghost function After(s: State, events: seq<Event>, locking: bool): State
    requires IsRun(s, events, locking)
    decreases |events|, 1
  {
    if events == [] then s
    else Step(After(s, events[..|events| - 1], locking), events[|events| - 1], locking)
  }

  // ----- what every step keeps

  // Every aircraft a route refers to is in the fleet of the route's owner.
  ghost predicate NoGhosts(s: State) {
    forall r :: r in s.routes && s.routes[r].aircraft.Some? ==>
      s.routes[r].aircraft.value in s.fleet && s.fleet[s.routes[r].aircraft.value] == s.routes[r].owner
  }

  ghost predicate NoneTwice(s: State) {
    forall r, r' :: r in s.routes && r' in s.routes && r != r' && s.routes[r].aircraft.Some? ==>
      s.routes[r].aircraft != s.routes[r'].aircraft
  }

  ghost predicate LocksInv(s: State) {
    && (forall a :: a in s.held ==>
          s.held[a] < |s.actors| && InTx(s.actors[s.held[a]]) && s.actors[s.held[a]].job.aircraft == a)
    && (forall i :: 0 <= i < |s.actors| && InTx(s.actors[i]) ==>
          s.actors[i].job.aircraft in s.held && s.held[s.actors[i].job.aircraft] == i)
    && (forall r :: r in s.rows ==>
          s.rows[r] < |s.actors| && s.actors[s.rows[r]].stage.Written? && s.actors[s.rows[r]].job.Assign?
          && s.actors[s.rows[r]].job.route == r)
    && (forall i :: 0 <= i < |s.actors| && !s.actors[i].stage.Waiting? && !s.actors[i].stage.Done? ==>
          Locks(s.actors[i].job))
  }

  // What the transaction has learnt is still so, although others have committed since.
  ghost predicate Vouched(s: State, x: Actor) {
    InTx(x) ==>
      && x.job.aircraft in s.fleet && s.fleet[x.job.aircraft] == x.user
      && (!x.stage.Locked? ==>
            forall r :: r in s.routes && s.routes[r].aircraft == Some(x.job.aircraft) ==>
                  x.job.Assign? && r == x.job.route)
  }

  ghost predicate Inv(s: State) {
    && NoGhosts(s) && NoneTwice(s) && LocksInv(s)
    && forall i :: 0 <= i < |s.actors| ==> Vouched(s, s.actors[i])
  }

  lemma FinishKeepsInv(s: State, i: nat, ok: bool)
    requires i < |s.actors| && Inv(s)
    ensures Inv(Finish(s, i, ok))
  {
  }

  // Only one's own route gets the aircraft, and only an aircraft on no route leaves the fleet.
  lemma CommitKeepsRoutes(s: State, i: nat)
    requires i < |s.actors| && Inv(s) && InTx(s.actors[i]) && s.actors[i].stage.Written?
    ensures NoGhosts(Apply(s, s.actors[i])) && NoneTwice(Apply(s, s.actors[i]))
  {
  }

  // A commit by the one actor that holds the aircraft leaves everyone else's knowledge true.
  lemma CommitKeepsInv(s: State, i: nat)
    requires i < |s.actors| && Inv(s) && InTx(s.actors[i]) && s.actors[i].stage.Written?
    ensures Inv(Finish(Apply(s, s.actors[i]), i, true))
  {
    var x := s.actors[i];
    var s' := Finish(Apply(s, x), i, true);
    CommitKeepsRoutes(s, i);
    forall j | 0 <= j < |s'.actors| && InTx(s'.actors[j])
      ensures s'.actors[j].job.aircraft in s'.held && s'.held[s'.actors[j].job.aircraft] == j
      ensures Vouched(s', s'.actors[j])
    {
      assert s'.actors[j] == s.actors[j] && s.actors[j].job.aircraft != x.job.aircraft;
      assert Vouched(s, s.actors[j]);
    }
  }

  // Taking aircraft off routes can only make the invariant easier to meet.
  lemma FreeingKeepsInv(s: State, routes: map<nat, Route>)
    requires Inv(s) && routes.Keys == s.routes.Keys
    requires forall r :: r in routes ==>
               routes[r].owner == s.routes[r].owner && routes[r].aircraft in {None, s.routes[r].aircraft}
    ensures Inv(s.(routes := routes))
  {
  }

  lemma LeavingKeepsInv(s: State, i: nat, ok: bool)
    requires Inv(s) && i < |s.actors| && !InTx(s.actors[i])
    ensures Inv(At(s, i, Done(ok)))
  {
  }

  lemma SingleKeepsInv(s: State, i: nat)
    requires Inv(s) && Enabled(s, Single(i), true)
    ensures Inv(Step(s, Single(i), true))
  {
    var s' := Apply(s, s.actors[i]);
    FreeingKeepsInv(s, s'.routes);
    assert s' == s.(routes := s'.routes);
    LeavingKeepsInv(s', i, true);
  }

  lemma LockKeepsInv(s: State, i: nat)
    requires Inv(s) && Enabled(s, Lock(i), true)
    ensures Inv(Step(s, Lock(i), true))
  {
    var x := s.actors[i];
    if x.job.aircraft !in s.fleet || s.fleet[x.job.aircraft] != x.user {
      LeavingKeepsInv(s, i, false);
    } else {
      TakingKeepsInv(s, i);
    }
  }

  lemma TakingKeepsInv(s: State, i: nat)
    requires Inv(s) && Enabled(s, Lock(i), true)
    requires s.actors[i].job.aircraft in s.fleet && s.fleet[s.actors[i].job.aircraft] == s.actors[i].user
    ensures Inv(Step(s, Lock(i), true))
  {
    var s' := Step(s, Lock(i), true);
    forall j | 0 <= j < |s'.actors|
      ensures j != i ==> s'.actors[j] == s.actors[j]
      ensures Vouched(s', s'.actors[j])
    {
      assert Vouched(s, s.actors[j]);
    }
    assert LocksInv(s');
  }

  // Another user's route cannot have the aircraft, so looking at one's own is enough.
  lemma CheckKeepsInv(s: State, i: nat)
    requires Inv(s) && Enabled(s, Check(i), true)
    ensures Inv(Step(s, Check(i), true))
  {
    if Taken(s, s.actors[i].user, s.actors[i].job) {
      FinishKeepsInv(s, i, false);
    } else {
      var s' := Step(s, Check(i), true);
      assert Vouched(s, s.actors[i]);
      forall j | 0 <= j < |s'.actors|
        ensures Vouched(s', s'.actors[j])
      {
        assert Vouched(s, s.actors[j]);
      }
    }
  }

  lemma WriteKeepsInv(s: State, i: nat)
    requires Inv(s) && Enabled(s, Write(i), true)
    ensures Inv(Step(s, Write(i), true))
  {
    var s' := Step(s, Write(i), true);
    forall j | 0 <= j < |s'.actors|
      ensures Vouched(s', s'.actors[j])
    {
      assert Vouched(s, s.actors[j]);
    }
  }

  lemma ArrivalsKeepInv(s: State, e: Event)
    requires Inv(s) && Enabled(s, e, true) && (e.Arrive? || e.Create? || e.Deliver?)
    ensures Inv(Step(s, e, true))
  {
    var s' := Step(s, e, true);
    forall j | 0 <= j < |s'.actors|
      ensures Vouched(s', s'.actors[j])
    {
      if j < |s.actors| {
        assert Vouched(s, s.actors[j]);
      }
    }
  }

  lemma StepKeepsInv(s: State, e: Event)
    requires Inv(s) && Enabled(s, e, true)
    ensures Inv(Step(s, e, true))
  {
    match e
    case Lock(i) => LockKeepsInv(s, i);
    case Check(i) => CheckKeepsInv(s, i);
    case Write(i) => WriteKeepsInv(s, i);
    case Commit(i) => CommitKeepsInv(s, i);
    case Abort(i) => FinishKeepsInv(s, i, false);
    case Single(i) => SingleKeepsInv(s, i);
    case _ => ArrivalsKeepInv(s, e);
  }

  // Nobody at work yet.
  ghost predicate Idle(s: State) {
    s.actors == [] && s.held == map[] && s.rows == map[] && NoGhosts(s) && NoneTwice(s)
  }

  /** Under any interleaving of assignments, unassignments, sales, terminations and closings, by any users, with
      any of them failing anywhere: no aircraft is ever committed to two routes, and every aircraft a route refers
      to is in its owner's fleet. */
  lemma {:induction false} NoDoubleAssignment(s: State, events: seq<Event>)
    requires Idle(s) && IsRun(s, events, true)
    ensures Inv(After(s, events, true))
    decreases events
  {
    if events != [] {
      NoDoubleAssignment(s, events[..|events| - 1]);
      StepKeepsInv(After(s, events[..|events| - 1], true), events[|events| - 1]);
    }
  }

  // What the foreign key's ON DELETE SET NULL would do to the routes.
  function Nulled(routes: map<nat, Route>, aircraft: nat): map<nat, Route> {
    map r | r in routes ::
      if routes[r].aircraft == Some(aircraft) then routes[r].(aircraft := None) else routes[r]
  }

  /** The foreign key never has anything to do: no route refers to an aircraft at the moment it is deleted. */
  lemma SetNullNeverFires(s: State, events: seq<Event>, i: nat)
    requires Idle(s) && IsRun(s, events, true)
    requires Enabled(After(s, events, true), Commit(i), true) && After(s, events, true).actors[i].job.Remove?
    ensures Nulled(After(s, events, true).routes, After(s, events, true).actors[i].job.aircraft)
            == After(s, events, true).routes
  {
    NoDoubleAssignment(s, events);
    var t := After(s, events, true);
    assert Vouched(t, t.actors[i]);
  }

  // The actor can take its next step without waiting.
  ghost predicate CanMove(s: State, i: nat) {
    exists e :: Enabled(s, e, true) && e in [Lock(i), Check(i), Write(i), Commit(i), Single(i)]
  }

  /** The locks never block everybody: while any call is unfinished, some call can take its next step. */
  lemma NeverStuck(s: State, i: nat)
    requires Inv(s) && i < |s.actors| && !s.actors[i].stage.Done?
    ensures exists j: nat :: j < |s.actors| && CanMove(s, j)
  {
    var j := i;
    if Locks(s.actors[j].job) && s.actors[j].stage.Waiting? && s.actors[j].job.aircraft in s.held {
      j := s.held[s.actors[j].job.aircraft];
    }
    if (!Locks(s.actors[j].job) || (s.actors[j].job.Assign? && s.actors[j].stage.Checked?))
        && s.actors[j].job.route in s.rows {
      j := s.rows[s.actors[j].job.route];
    }
    var e := if !Locks(s.actors[j].job) then Single(j)
             else match s.actors[j].stage
                  case Waiting => Lock(j)
                  case Locked => Check(j)
                  case Checked => Write(j)
                  case _ => Commit(j);
    assert Enabled(s, e, true);
    assert CanMove(s, j);
  }

  // ----- without the row lock

  const TWO_ROUTES := State(map[0 := Route(7, None, false), 1 := Route(7, None, false)], map[5 := 7], map[], map[], [])

  const RACE := [Arrive(7, Assign(0, 5)), Arrive(7, Assign(1, 5)), Lock(0), Lock(1), Check(0), Check(1),
                 Write(0), Write(1), Commit(0), Commit(1)]

  lemma OneMore(s: State, events: seq<Event>, e: Event, locking: bool)
    requires IsRun(s, events, locking) && Enabled(After(s, events, locking), e, locking)
    ensures IsRun(s, events + [e], locking)
    ensures After(s, events + [e], locking) == Step(After(s, events, locking), e, locking)
  {
  }

  function Racing(first: Stage, second: Stage): State {
    TWO_ROUTES.(actors := [Actor(7, Assign(0, 5), first), Actor(7, Assign(1, 5), second)])
  }

  // The race has come to `s` after its first k steps.
  ghost predicate RacedTo(k: nat, s: State) {
    k <= |RACE| && IsRun(TWO_ROUTES, RACE[..k], false) && After(TWO_ROUTES, RACE[..k], false) == s
  }

  lemma RaceOn(k: nat, s: State)
    requires k < |RACE| && RacedTo(k, s) && Enabled(s, RACE[k], false)
    ensures RacedTo(k + 1, Step(s, RACE[k], false))
  {
    assert RACE[..k + 1] == RACE[..k] + [RACE[k]];
    OneMore(TWO_ROUTES, RACE[..k], RACE[k], false);
  }

  lemma BothArrive()
    ensures RacedTo(2, Racing(Waiting, Waiting))
  {
    assert RACE[..0] == [];
    assert RacedTo(0, TWO_ROUTES);
    RaceOn(0, TWO_ROUTES);
    RaceOn(1, Step(TWO_ROUTES, RACE[0], false));
  }

  lemma BothGoOn()
    ensures RacedTo(4, Racing(Locked, Locked))
  {
    BothArrive();
    RaceOn(2, Racing(Waiting, Waiting));
    assert Step(Racing(Waiting, Waiting), Lock(0), false) == Racing(Locked, Waiting);
    RaceOn(3, Racing(Locked, Waiting));
    assert Step(Racing(Locked, Waiting), Lock(1), false) == Racing(Locked, Locked);
  }

  lemma BothPassTheirCheck()
    ensures RacedTo(6, Racing(Checked, Checked))
  {
    BothGoOn();
    RaceOn(4, Racing(Locked, Locked));
    assert Step(Racing(Locked, Locked), Check(0), false) == Racing(Checked, Locked);
    RaceOn(5, Racing(Checked, Locked));
    assert Step(Racing(Checked, Locked), Check(1), false) == Racing(Checked, Checked);
  }

  lemma BothWrite()
    ensures RacedTo(8, Racing(Written, Written).(rows := map[0 := 0, 1 := 1]))
  {
    BothPassTheirCheck();
    RaceOn(6, Racing(Checked, Checked));
    var s := Racing(Written, Checked).(rows := map[0 := 0]);
    assert Step(Racing(Checked, Checked), Write(0), false) == s;
    RaceOn(7, s);
    assert Step(s, Write(1), false) == Racing(Written, Written).(rows := map[0 := 0, 1 := 1]);
  }

  lemma FirstCommits(s: State)
    requires s == Step(Racing(Written, Written).(rows := map[0 := 0, 1 := 1]), Commit(0), false)
    ensures RacedTo(9, s)
    ensures s.actors[1] == Actor(7, Assign(1, 5), Written)
            && s.routes == map[0 := Route(7, Some(5), false), 1 := Route(7, None, false)]
  {
    BothWrite();
    RaceOn(8, Racing(Written, Written).(rows := map[0 := 0, 1 := 1]));
  }

  /** Without FOR UPDATE the same two assignments both pass their check, and the aircraft ends up on both routes. */
  lemma WithoutTheLockAnAircraftIsAssignedTwice()
    ensures Idle(TWO_ROUTES) && IsRun(TWO_ROUTES, RACE, false) && !NoneTwice(After(TWO_ROUTES, RACE, false))
  {
    var s := Step(Racing(Written, Written).(rows := map[0 := 0, 1 := 1]), Commit(0), false);
    FirstCommits(s);
    RaceOn(9, s);
    var s' := Step(s, Commit(1), false);
    assert RACE[..10] == RACE;
    assert s'.routes[0].aircraft == Some(5) && s'.routes[1].aircraft == Some(5);
  }
}
