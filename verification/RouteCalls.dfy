/** What each call on an aircraft or a route does, on its own and at the moment it commits among others. */
module RouteCalls {
  import opened Sequences
  import opened AircraftLock

  // Every route but one is as it was, and that one has the same owner.
  ghost predicate OnlyRoute(routes: map<nat, Route>, routes': map<nat, Route>, route: nat) {
    && routes'.Keys == routes.Keys
    && forall r :: r in routes ==> routes'[r].owner == routes[r].owner && (r != route ==> routes'[r] == routes[r])
  }

  // What a call that succeeds does to the routes and the fleet. A route of somebody else is left alone.
  ghost predicate Does(user: nat, job: Job, s: State, s': State) {
    match job
    case Assign(route, aircraft) =>
      && s'.fleet == s.fleet && OnlyRoute(s.routes, s'.routes, route)
      && (route in s.routes ==>
            s'.routes[route] == if s.routes[route].owner == user
                                then Route(user, Some(aircraft), s.routes[route].cancelled) else s.routes[route])
    case Remove(aircraft) => s'.routes == s.routes && s'.fleet == s.fleet - {aircraft}
    case Unassign(route) =>
      && s'.fleet == s.fleet && OnlyRoute(s.routes, s'.routes, route)
      && (route in s.routes ==>
            s'.routes[route] == if s.routes[route].owner == user then Route(user, None, s.routes[route].cancelled)
                                else s.routes[route])
    case Close(route) =>
      && s'.fleet == s.fleet && OnlyRoute(s.routes, s'.routes, route)
      && (route in s.routes ==>
            s'.routes[route] == if s.routes[route].owner == user then Route(user, None, true) else s.routes[route])
  }

  // The aircraft is the caller's and on no other of the caller's routes.
  ghost predicate Free(s: State, user: nat, job: Job)
    requires Locks(job)
  {
    && job.aircraft in s.fleet && s.fleet[job.aircraft] == user
    && forall r :: r in s.routes && s.routes[r].owner == user && s.routes[r].aircraft == Some(job.aircraft) ==>
         job.Assign? && r == job.route
  }

  predicate Ends(s: State, i: nat, ok: bool) {
    i < |s.actors| && s.actors[i].stage == Done(ok)
  }

  lemma CommitDoes(s: State, i: nat)
    requires Enabled(s, Commit(i), true)
    ensures var s' := Step(s, Commit(i), true);
            Does(s.actors[i].user, s.actors[i].job, s, s') && Ends(s', i, true)
  {
  }

  /** Among any other calls: a call that commits finds its aircraft its own and on no other route at that very moment,
      although it looked earlier, and does exactly what it is for. */
  lemma CommittedCallsWereRight(s: State, events: seq<Event>, i: nat)
    requires Idle(s) && IsRun(s, events, true) && Enabled(After(s, events, true), Commit(i), true)
    ensures var t := After(s, events, true);
            Free(t, t.actors[i].user, t.actors[i].job)
            && Does(t.actors[i].user, t.actors[i].job, t, Step(t, Commit(i), true))
  {
    NoDoubleAssignment(s, events);
    var t := After(s, events, true);
    assert Vouched(t, t.actors[i]);
    CommitDoes(t, i);
  }

  /** Nothing else touches a route that has an aircraft or takes one from the fleet: a step that is no commit and no
      single statement changes neither, but for a new route without an aircraft or a new aircraft. */
  lemma OnlyCallsChangeRoutes(s: State, e: Event)
    requires Enabled(s, e, true)
    ensures var s' := Step(s, e, true);
            match e
            case Commit(i) => Does(s.actors[i].user, s.actors[i].job, s, s')
            case Single(i) => Does(s.actors[i].user, s.actors[i].job, s, s') && Ends(s', i, true)
            case Create(user, route) => s'.fleet == s.fleet && s'.routes == s.routes[route := Route(user, None, false)]
            case Deliver(user, aircraft) => s'.routes == s.routes && s'.fleet == s.fleet[aircraft := user]
            case _ => s'.routes == s.routes && s'.fleet == s.fleet
  {
  }

  /** A call looks and is refused exactly when the aircraft is not the caller's, or another of the caller's routes has
      it. */
  lemma RefusedIffNotFree(s: State, i: nat)
    requires Enabled(s, Lock(i), true)
    ensures var locked := Step(s, Lock(i), true);
            if Ends(locked, i, false) then !Free(s, s.actors[i].user, s.actors[i].job)
            else Enabled(locked, Check(i), true)
                 && (Ends(Step(locked, Check(i), true), i, false) <==> !Free(s, s.actors[i].user, s.actors[i].job))
  {
  }

  // ----- a call nobody disturbs

  function Whole(user: nat, job: Job, i: nat): seq<Event> {
    [Arrive(user, job), Lock(i)] + [Check(i), Write(i)] + [Commit(i)]
  }

  ghost predicate Leads(s: State, events: seq<Event>, t: State) {
    IsRun(s, events, true) && After(s, events, true) == t
  }

  lemma GoOn(s: State, events: seq<Event>, t: State, e: Event, t': State)
    requires Leads(s, events, t) && Enabled(t, e, true) && t' == Step(t, e, true)
    ensures Leads(s, events + [e], t')
  {
    OneMore(s, events, e, true);
  }

  // `x` is at work on the state by itself.
  function With(s: State, x: Actor, held: map<nat, nat>, rows: map<nat, nat>): State {
    s.(actors := s.actors + [x], held := held, rows := rows)
  }

  lemma Looks(s: State, user: nat, job: Job)
    requires Idle(s) && Locks(job) && Free(s, user, job)
    ensures Leads(s, [Arrive(user, job), Lock(0)], With(s, Actor(user, job, Locked), map[job.aircraft := 0], map[]))
  {
    var waiting := With(s, Actor(user, job, Waiting), map[], map[]);
    assert Leads(s, [], s);
    GoOn(s, [], s, Arrive(user, job), waiting);
    assert [] + [Arrive(user, job)] == [Arrive(user, job)];
    GoOn(s, [Arrive(user, job)], waiting, Lock(0), Step(waiting, Lock(0), true));
    assert [Arrive(user, job)] + [Lock(0)] == [Arrive(user, job), Lock(0)];
    assert Step(waiting, Lock(0), true).actors == [Actor(user, job, Locked)];
  }

  /** And a free aircraft is had for the asking: a call nobody disturbs runs to its commit and does what it is for. */
  lemma UndisturbedCallSucceeds(s: State, user: nat, job: Job)
    requires Idle(s) && Locks(job) && Free(s, user, job)
    ensures IsRun(s, Whole(user, job, 0), true)
    ensures var t := After(s, Whole(user, job, 0), true); Ends(t, 0, true) && Does(user, job, s, t)
  {
    Looks(s, user, job);
    var looked := [Arrive(user, job), Lock(0)];
    var locked := With(s, Actor(user, job, Locked), map[job.aircraft := 0], map[]);
    var checked := With(s, Actor(user, job, Checked), map[job.aircraft := 0], map[]);
    assert Step(locked, Check(0), true).actors == checked.actors;
    GoOn(s, looked, locked, Check(0), checked);
    var written := Step(checked, Write(0), true);
    GoOn(s, looked + [Check(0)], checked, Write(0), written);
    assert looked + [Check(0)] + [Write(0)] == looked + [Check(0), Write(0)];
    assert written.actors == [Actor(user, job, Written)];
    GoOn(s, looked + [Check(0), Write(0)], written, Commit(0), Step(written, Commit(0), true));
    CommitDoes(written, 0);
  }
}
