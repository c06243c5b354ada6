/**
 The order in which the engine's transactions lock rows, and exactly which of them can deadlock.

 A row is locked by FOR UPDATE, by an UPDATE or DELETE of it, or by the foreign-key check of a row that refers to it,
 until the transaction ends. Every change of an account's balance, a loan's debt or an aircraft runs a trigger that
 updates the player's users row (migrations/00_baseline.sql:5379-5454, 6167-6179). PostgreSQL undoes one of the
 transactions when a cycle of waiting closes.
 */
module RowLocks {
  datatype Mode = KeyShare | NoKeyUpdate | Update

  // A foreign-key check goes together with an UPDATE that leaves the key alone, not with FOR UPDATE.
  predicate Conflicts(m: Mode, n: Mode) {
    m.Update? || n.Update? || (m.NoKeyUpdate? && n.NoKeyUpdate?)
  }

  datatype Row =
    | Advisory(user: nat)
    | LoanRow(user: nat, id: nat)
    | SettledLoanRow(user: nat, id: nat)
    | AircraftRow(user: nat, id: nat)
    | ModelRow(id: nat)
    | RouteRow(user: nat, id: nat)
    | AccountRow(user: nat)
    | UserRow(user: nat)

  datatype Lock = Lock(row: Row, mode: Mode)

  predicate Against(l: Lock, m: Lock) {
    l.row == m.row && Conflicts(l.mode, m.mode)
  }

  // ----- what the commands lock

  datatype Command =
    | Buy(user: nat, model: nat)                            // purchase, lease or financing
    | Remove(user: nat, aircraft: nat)                      // sale or termination
    | SellFinanced(user: nat, aircraft: nat, loan: nat)     // clears the collateral of the settled loan
    | Repair(user: nat, aircraft: nat, model: nat)
    | Assign(user: nat, aircraft: nat, model: nat, route: nat)
    | Unassign(user: nat, route: nat)                       // also closing or repricing a route
    | Borrow(user: nat)
    | Repay(user: nat, loan: nat)
    | SettleFinancing(user: nat, loan: nat, aircraft: nat)  // the repayment that settles it
    | Refinance(user: nat, loan: nat)
    | Installment(user: nat, loan: nat)                     // the day boundary's four statements
    | LateFee(user: nat, loan: nat)                         // also ending the loan
    | StaleInstallment(user: nat, loan: nat)                // both on a loan settled since it was read
    | StaleFee(user: nat, loan: nat)
    | Ground(user: nat, aircraft: nat)                      // also reconfiguring seats
    | CountDay(user: nat)
    | Tick(user: nat, flying: seq<nat>)                     // one window: the postings, then each aircraft's wear
    | Bankrupt(user: nat, flying: seq<nat>, loans: seq<nat>, routes: seq<nat>)

  function Changing(row: Row): Lock {
    Lock(row, NoKeyUpdate)
  }

  function Fleet(user: nat, aircraft: seq<nat>): seq<Lock> {
    seq(|aircraft|, i requires 0 <= i < |aircraft| => Changing(AircraftRow(user, aircraft[i])))
  }

  function Loans(user: nat, loans: seq<nat>): seq<Lock> {
    seq(|loans|, i requires 0 <= i < |loans| => Changing(LoanRow(user, loans[i])))
  }

  function Routes(user: nat, routes: seq<nat>): seq<Lock> {
    seq(|routes|, i requires 0 <= i < |routes| => Changing(RouteRow(user, routes[i])))
  }

  // A movement of cash: the account, and through its trigger the user.
  function Cash(user: nat): seq<Lock> {
    [Changing(AccountRow(user)), Changing(UserRow(user))]
  }

  // Each row once, when it is first locked.
  function Wants(c: Command): seq<Lock> {
    match c
    case Buy(user, model) => Cash(user) + [Lock(ModelRow(model), KeyShare)]
    case Remove(user, aircraft) => [Lock(AircraftRow(user, aircraft), Update)] + Cash(user)
    case SellFinanced(user, aircraft, loan) =>
      [Lock(AircraftRow(user, aircraft), Update)] + Cash(user) + [Changing(SettledLoanRow(user, loan))]
    case Repair(user, aircraft, model) =>
      [Lock(AircraftRow(user, aircraft), Update), Lock(ModelRow(model), Update)] + Cash(user)
    case Assign(user, aircraft, model, route) =>
      [Lock(AircraftRow(user, aircraft), Update), Lock(ModelRow(model), Update), Changing(RouteRow(user, route))]
    case Unassign(user, route) => [Changing(RouteRow(user, route))]
    case Borrow(user) => [Changing(UserRow(user)), Changing(AccountRow(user))]
    case Repay(user, loan) =>
      [Lock(LoanRow(user, loan), Update), Lock(AccountRow(user), Update), Changing(UserRow(user))]
    case SettleFinancing(user, loan, aircraft) =>
      [Lock(LoanRow(user, loan), Update), Lock(AccountRow(user), Update), Changing(UserRow(user)),
       Changing(AircraftRow(user, aircraft))]
    case Refinance(user, loan) => [Lock(LoanRow(user, loan), Update), Changing(UserRow(user))]
    case Installment(user, loan) => Cash(user) + [Changing(LoanRow(user, loan))]
    case LateFee(user, loan) => [Changing(LoanRow(user, loan)), Changing(UserRow(user))]
    case StaleInstallment(user, loan) => Cash(user) + [Changing(SettledLoanRow(user, loan))]
    case StaleFee(user, loan) => [Changing(SettledLoanRow(user, loan)), Changing(UserRow(user))]
    case Ground(user, aircraft) => [Changing(AircraftRow(user, aircraft)), Changing(UserRow(user))]
    case CountDay(user) => [Changing(UserRow(user))]
    case Tick(user, flying) => [Lock(Advisory(user), Update)] + Cash(user) + Fleet(user, flying)
    case Bankrupt(user, flying, loans, routes) =>
      [Changing(UserRow(user))] + Fleet(user, flying) + Loans(user, loans) + Routes(user, routes)
  }

  // ----- transactions under way

  // `wants` are the command's locks.
  datatype Tx = Tx(command: Command, wants: seq<Lock>, got: nat, done: bool)

  ghost predicate Blocks(t: Tx, l: Lock) {
    !t.done && exists k :: 0 <= k < t.got <= |t.wants| && Against(t.wants[k], l)
  }

  predicate Unfinished(s: seq<Tx>, i: nat) {
    i < |s| && !s[i].done && s[i].got <= |s[i].wants|
  }

  predicate WantsMore(t: Tx) {
    !t.done && t.got < |t.wants|
  }

  // It has everything and can commit, or nobody else blocks its next row.
  ghost predicate CanMove(s: seq<Tx>, i: nat) {
    Unfinished(s, i) && (WantsMore(s[i]) ==> forall j :: 0 <= j < |s| && j != i ==> !Blocks(s[j], s[i].wants[s[i].got]))
  }

  function Moved(t: Tx): Tx {
    if WantsMore(t) then t.(got := t.got + 1) else t.(done := true)
  }

  // Somebody is unfinished, and everybody unfinished waits for somebody else.
  ghost predicate Deadlocked(s: seq<Tx>) {
    (exists i: nat :: Unfinished(s, i)) && forall i: nat :: !CanMove(s, i)
  }

  datatype Event = Begin(command: Command) | Move(tx: nat) | Abort(tx: nat)

  ghost predicate Enabled(s: seq<Tx>, e: Event) {
    match e
    case Begin(_) => true
    case Move(i) => CanMove(s, i)
    case Abort(i) => Unfinished(s, i)
  }

  function Step(s: seq<Tx>, e: Event): seq<Tx> {
    match e
    case Begin(c) => s + [Tx(c, Wants(c), 0, false)]
    case Move(i) => if i < |s| then s[i := Moved(s[i])] else s
    case Abort(i) => if i < |s| then s[i := s[i].(done := true)] else s
  }

  function After(events: seq<Event>): seq<Tx> {
    if events == [] then [] else Step(After(events[..|events| - 1]), events[|events| - 1])
  }

  ghost predicate IsRun(events: seq<Event>) {
    events == []
    || (IsRun(events[..|events| - 1]) && Enabled(After(events[..|events| - 1]), events[|events| - 1]))
  }

  // ----- which commands clash

  datatype Kind = KBuy | KRemove | KSellFinanced | KRepair | KAssign | KUnassign | KBorrow | KRepay | KSettle
                | KRefinance | KInstallment | KLateFee | KStaleInstallment | KStaleFee | KGround | KCountDay | KTick
                | KBankrupt

  function KindOf(c: Command): Kind {
    match c
    case Buy(_, _) => KBuy
    case Remove(_, _) => KRemove
    case SellFinanced(_, _, _) => KSellFinanced
    case Repair(_, _, _) => KRepair
    case Assign(_, _, _, _) => KAssign
    case Unassign(_, _) => KUnassign
    case Borrow(_) => KBorrow
    case Repay(_, _) => KRepay
    case SettleFinancing(_, _, _) => KSettle
    case Refinance(_, _) => KRefinance
    case Installment(_, _) => KInstallment
    case LateFee(_, _) => KLateFee
    case StaleInstallment(_, _) => KStaleInstallment
    case StaleFee(_, _) => KStaleFee
    case Ground(_, _) => KGround
    case CountDay(_) => KCountDay
    case Tick(_, _) => KTick
    case Bankrupt(_, _, _, _) => KBankrupt
  }

  const ACCOUNT_THEN_USER :=
    {KBuy, KRemove, KSellFinanced, KRepair, KRepay, KSettle, KInstallment, KStaleInstallment, KTick}
  const USER_THEN_AIRCRAFT := {KSettle, KTick, KBankrupt}
  const AIRCRAFT_THEN_USER := {KRemove, KSellFinanced, KRepair, KGround}
  const USER_THEN_LOAN := {KInstallment, KBankrupt}
  const LOAN_THEN_USER := {KRepay, KSettle, KRefinance, KLateFee}

  const USER_THEN_SETTLED := {KSellFinanced, KStaleInstallment}

  // The two take the same two rows in opposite orders.
  predicate Clash(k: Kind, l: Kind) {
    || (k == KBorrow && l in ACCOUNT_THEN_USER)
    || (k == KBuy && l == KRepair)
    || (k in USER_THEN_AIRCRAFT && l in AIRCRAFT_THEN_USER)
    || (k in USER_THEN_LOAN && l in LOAN_THEN_USER)
    || (k in USER_THEN_SETTLED && l == KStaleFee)
  }

  ghost predicate Safe(kinds: set<Kind>) {
    forall k, l :: k in kinds && l in kinds ==> !Clash(k, l)
  }

  ghost predicate Uses(kinds: set<Kind>, events: seq<Event>) {
    forall e :: e in events && e.Begin? ==> KindOf(e.command) in kinds
  }

  ghost predicate NeverDeadlocks(kinds: set<Kind>) {
    forall events: seq<Event> :: IsRun(events) && Uses(kinds, events) ==> !Deadlocked(After(events))
  }

  // ----- no clash, no deadlock

  // An order all commands of these kinds follow, if none clash.
  function Rank(kinds: set<Kind>, row: Row): nat {
    match row
    case Advisory(_) => 0
    case LoanRow(_, _) => if kinds * USER_THEN_LOAN != {} then 60 else 5
    case SettledLoanRow(_, _) => if KStaleFee in kinds then 5 else 60
    case AircraftRow(_, _) => if kinds * USER_THEN_AIRCRAFT != {} then 50 else 10
    case ModelRow(_) => if KRepair in kinds then 20 else 55
    case RouteRow(_, _) => 70
    case AccountRow(_) => if KBorrow in kinds then 41 else 40
    case UserRow(_) => if KBorrow in kinds then 40 else 41
  }

  // Takes several rows of one table, each after the user's.
  predicate TakesMany(c: Command) {
    c.Tick? || c.Bankrupt?
  }

  predicate OfMany(row: Row) {
    row.AircraftRow? || row.LoanRow? || row.RouteRow?
  }

  lemma TickInOrder(kinds: set<Kind>, c: Command, m: nat, n: nat)
    requires Safe(kinds) && KTick in kinds && c.Tick? && m < n < |Wants(c)|
    ensures var r, r' := Wants(c)[m].row, Wants(c)[n].row;
            Rank(kinds, r) < Rank(kinds, r') || (Rank(kinds, r) == Rank(kinds, r') && OfMany(r) && m >= 3)
  {
    assert KTick in kinds * USER_THEN_AIRCRAFT;
    assert !Clash(KBorrow, KTick) || KBorrow !in kinds;
  }

  lemma BankruptInOrder(kinds: set<Kind>, c: Command, m: nat, n: nat)
    requires Safe(kinds) && KBankrupt in kinds && c.Bankrupt? && m < n < |Wants(c)|
    ensures var r, r' := Wants(c)[m].row, Wants(c)[n].row;
            Rank(kinds, r) < Rank(kinds, r') || (Rank(kinds, r) == Rank(kinds, r') && OfMany(r) && m >= 1)
  {
    assert KBankrupt in kinds * USER_THEN_AIRCRAFT && KBankrupt in kinds * USER_THEN_LOAN;
  }

  lemma OthersInOrder(kinds: set<Kind>, c: Command, m: nat, n: nat)
    requires Safe(kinds) && KindOf(c) in kinds && !TakesMany(c) && m < n < |Wants(c)|
    ensures Rank(kinds, Wants(c)[m].row) < Rank(kinds, Wants(c)[n].row)
  {
    assert KBorrow in kinds ==> !Clash(KBorrow, KindOf(c));
    assert forall k :: k in kinds ==> !Clash(k, KindOf(c)) && !Clash(KindOf(c), k);
  }

  // The user of a command that takes many rows, which it has locked before the first of them.
  lemma UserComesFirst(c: Command, n: nat) returns (k: nat)
    requires TakesMany(c) && n < |Wants(c)| && OfMany(Wants(c)[n].row)
    ensures k < n && Wants(c)[k] == Changing(UserRow(c.user)) && Wants(c)[n].row.user == c.user
  {
    k := if c.Tick? then 2 else 0;
  }

  // Nobody holds what somebody else has locked against it.
  ghost predicate Exclusive(s: seq<Tx>) {
    forall i, j, k :: 0 <= i < |s| && 0 <= j < |s| && i != j && !s[i].done && 0 <= k < s[i].got <= |s[i].wants| ==>
      !Blocks(s[j], s[i].wants[k])
  }

  ghost predicate Within(s: seq<Tx>) {
    forall i :: 0 <= i < |s| ==> s[i].got <= |s[i].wants|
  }

  lemma AgainstBoth(l: Lock, m: Lock)
    ensures Against(l, m) == Against(m, l)
  {
  }

  lemma BlocksAfterMove(t: Tx, l: Lock)
    requires t.got <= |t.wants|
    ensures Blocks(Moved(t), l) ==> Blocks(t, l) || (WantsMore(t) && Against(t.wants[t.got], l))
  {
  }

  lemma NothingAgainst(t: Tx, l: Lock, k: nat)
    requires !Blocks(t, l) && !t.done && k < t.got <= |t.wants|
    ensures !Against(t.wants[k], l) && !Against(l, t.wants[k])
  {
    AgainstBoth(l, t.wants[k]);
  }

  lemma MoveKeepsExclusive(s: seq<Tx>, i: nat)
    requires Exclusive(s) && Within(s) && CanMove(s, i)
    ensures Exclusive(Step(s, Move(i))) && Within(Step(s, Move(i)))
  {
    var s' := Step(s, Move(i));
    forall a, b, k | 0 <= a < |s'| && 0 <= b < |s'| && a != b && !s'[a].done && 0 <= k < s'[a].got <= |s'[a].wants|
      ensures !Blocks(s'[b], s'[a].wants[k])
    {
      if b == i {
        var l := s[a].wants[k];
        BlocksAfterMove(s[b], l);
        if WantsMore(s[b]) {
          NothingAgainst(s[a], s[b].wants[s[b].got], k);
        }
      }
    }
  }

  lemma {:induction false} RunKeepsExclusive(events: seq<Event>)
    requires IsRun(events)
    ensures Exclusive(After(events)) && Within(After(events))
    decreases events
  {
    if events != [] {
      var before, e := events[..|events| - 1], events[|events| - 1];
      RunKeepsExclusive(before);
      if e.Move? {
        MoveKeepsExclusive(After(before), e.tx);
      } else if e.Abort? {
        AbortKeepsExclusive(After(before), e.tx);
      } else {
        BeginKeepsExclusive(After(before), e.command);
      }
    }
  }

  lemma AbortKeepsExclusive(s: seq<Tx>, i: nat)
    requires Exclusive(s) && Within(s) && i < |s|
    ensures Exclusive(Step(s, Abort(i))) && Within(Step(s, Abort(i)))
  {
  }

  lemma BeginKeepsExclusive(s: seq<Tx>, c: Command)
    requires Exclusive(s) && Within(s)
    ensures Exclusive(Step(s, Begin(c))) && Within(Step(s, Begin(c)))
  {
  }

  ghost predicate OfKinds(kinds: set<Kind>, s: seq<Tx>) {
    forall i :: 0 <= i < |s| ==> s[i].wants == Wants(s[i].command) && KindOf(s[i].command) in kinds
  }

  lemma StepUsesKinds(kinds: set<Kind>, s: seq<Tx>, e: Event)
    requires OfKinds(kinds, s) && (e.Begin? ==> KindOf(e.command) in kinds)
    ensures OfKinds(kinds, Step(s, e))
  {
  }

  lemma {:induction false} RunUsesKinds(kinds: set<Kind>, events: seq<Event>)
    requires Uses(kinds, events)
    ensures OfKinds(kinds, After(events))
    decreases events
  {
    if events != [] {
      var before, e := events[..|events| - 1], events[|events| - 1];
      assert e in events && forall e' :: e' in before ==> e' in events;
      RunUsesKinds(kinds, before);
      StepUsesKinds(kinds, After(before), e);
    }
  }

  // How far along the common order a transaction waits; one that takes many rows counts as a little further.
  function Potential(kinds: set<Kind>, t: Tx): nat {
    if WantsMore(t) then 2 * Rank(kinds, t.wants[t.got].row) + (if TakesMany(t.command) then 1 else 0) else 0
  }

  lemma HeldInOrder(kinds: set<Kind>, c: Command, m: nat, n: nat)
    requires Safe(kinds) && KindOf(c) in kinds && m < n < |Wants(c)|
    ensures var r, r' := Wants(c)[m].row, Wants(c)[n].row;
            Rank(kinds, r) < Rank(kinds, r') || (Rank(kinds, r) == Rank(kinds, r') && TakesMany(c) && OfMany(r))
  {
    if c.Tick? {
      TickInOrder(kinds, c, m, n);
    } else if c.Bankrupt? {
      BankruptInOrder(kinds, c, m, n);
    } else {
      OthersInOrder(kinds, c, m, n);
    }
  }

  // Two that take many rows of one user never contest them: both would hold the user's row.
  lemma ManyDoNotMeet(s: seq<Tx>, i: nat, j: nat, k: nat)
    requires Exclusive(s) && i < |s| && j < |s| && i != j && WantsMore(s[i]) && !s[j].done
    requires k < s[j].got <= |s[j].wants| && TakesMany(s[i].command) && TakesMany(s[j].command)
    requires s[i].wants == Wants(s[i].command) && s[j].wants == Wants(s[j].command)
    requires OfMany(s[j].wants[k].row) && OfMany(s[i].wants[s[i].got].row)
    ensures s[j].wants[k].row != s[i].wants[s[i].got].row
  {
    var m := UserComesFirst(s[i].command, s[i].got);
    var n := UserComesFirst(s[j].command, k);
    NothingAgainst(s[j], s[i].wants[m], n);
  }

  lemma WaitingGoesUp(kinds: set<Kind>, s: seq<Tx>, i: nat, j: nat)
    requires Safe(kinds) && Exclusive(s) && Within(s)
    requires i < |s| && j < |s| && i != j && OfKinds(kinds, s)
    requires WantsMore(s[i]) && Blocks(s[j], s[i].wants[s[i].got]) && WantsMore(s[j])
    ensures Potential(kinds, s[i]) < Potential(kinds, s[j])
  {
    var k: nat :| k < s[j].got <= |s[j].wants| && Against(s[j].wants[k], s[i].wants[s[i].got]);
    HeldInOrder(kinds, s[j].command, k, s[j].got);
    var r, r' := s[j].wants[k].row, s[j].wants[s[j].got].row;
    if TakesMany(s[j].command) && OfMany(r) && TakesMany(s[i].command) {
      ManyDoNotMeet(s, i, j, k);
    }
  }

  ghost predicate Waits(s: seq<Tx>, i: nat, j: nat) {
    i < |s| && j < |s| && i != j && WantsMore(s[i]) && Blocks(s[j], s[i].wants[s[i].got])
  }

  // Whoever blocks somebody and waits too is further along.
  ghost predicate Climbs(s: seq<Tx>, potential: Tx -> nat) {
    forall i, j :: 0 <= i < |s| && 0 <= j < |s| && Waits(s, i, j) && WantsMore(s[j]) ==>
      potential(s[i]) < potential(s[j])
  }

  lemma SomebodyMoves(s: seq<Tx>, potential: Tx -> nat, bound: nat, i: nat)
    requires Climbs(s, potential) && Within(s) && Unfinished(s, i)
    requires forall j :: 0 <= j < |s| ==> potential(s[j]) <= bound
    ensures exists j: nat :: CanMove(s, j)
    decreases bound - potential(s[i])
  {
    if !CanMove(s, i) {
      var j :| 0 <= j < |s| && j != i && Blocks(s[j], s[i].wants[s[i].got]);
      assert Waits(s, i, j);
      if WantsMore(s[j]) {
        SomebodyMoves(s, potential, bound, j);
      } else {
        assert CanMove(s, j);
      }
    }
  }

  /** Commands none of which clash never block one another for good, however many there are, on whatever rows, and
      wherever any of them fails. */
  lemma SafeKindsNeverDeadlock(kinds: set<Kind>, events: seq<Event>)
    requires Safe(kinds) && IsRun(events) && Uses(kinds, events)
    ensures !Deadlocked(After(events))
  {
    RunKeepsExclusive(events);
    RunUsesKinds(kinds, events);
    NobodyIsStuck(kinds, After(events));
  }

  lemma NobodyIsStuck(kinds: set<Kind>, s: seq<Tx>)
    requires Safe(kinds) && Exclusive(s) && Within(s) && OfKinds(kinds, s)
    ensures !Deadlocked(s)
  {
    var potential := t => Potential(kinds, t);
    forall i, j | 0 <= i < |s| && 0 <= j < |s| && Waits(s, i, j) && WantsMore(s[j])
      ensures potential(s[i]) < potential(s[j])
    {
      WaitingGoesUp(kinds, s, i, j);
    }
    if Deadlocked(s) {
      var i: nat :| Unfinished(s, i);
      SomebodyMoves(s, potential, 200, i);
      assert false;
    }
  }

  // ----- a clash, a deadlock

  // Neither of the first rows of one is against any of the first of the other.
  ghost predicate Apart(c: seq<Lock>, p: nat, d: seq<Lock>, q: nat) {
    p <= |c| && q <= |d| && forall k, l :: 0 <= k < p && 0 <= l < q ==> !Against(d[l], c[k])
  }

  // `c` has taken its first p rows and `d` its first q, and each wants one the other has.
  ghost predicate Crossed(c: seq<Lock>, p: nat, d: seq<Lock>, q: nat) {
    && p < |c| && q < |d| && Apart(c, p, d, q)
    && (exists k :: 0 <= k < q && Against(d[k], c[p]))
    && (exists k :: 0 <= k < p && Against(c[k], d[q]))
  }

  // Each begins, one takes p rows, then the other q.
  function Race(c: Command, p: nat, d: Command, q: nat): seq<Event> {
    [Begin(c), Begin(d)] + seq(p, _ => Move(0)) + seq(q, _ => Move(1))
  }

  function Pair(c: Command, p: nat, d: Command, q: nat): seq<Tx> {
    [Tx(c, Wants(c), p, false), Tx(d, Wants(d), q, false)]
  }

  ghost predicate LeadsTo(events: seq<Event>, s: seq<Tx>) {
    IsRun(events) && After(events) == s
  }

  lemma OneMoreEvent(events: seq<Event>, s: seq<Tx>, e: Event, s': seq<Tx>)
    requires LeadsTo(events, s) && Enabled(s, e) && s' == Step(s, e)
    ensures LeadsTo(events + [e], s')
  {
    assert (events + [e])[..|events|] == events;
  }

  lemma BothBegin(c: Command, d: Command)
    ensures LeadsTo([Begin(c), Begin(d)], Pair(c, 0, d, 0))
  {
    var one := [Tx(c, Wants(c), 0, false)];
    OneMoreEvent([], [], Begin(c), one);
    assert [] + [Begin(c)] == [Begin(c)];
    OneMoreEvent([Begin(c)], one, Begin(d), Pair(c, 0, d, 0));
    assert [Begin(c)] + [Begin(d)] == [Begin(c), Begin(d)];
  }

  lemma {:induction false} FirstTakes(events: seq<Event>, s: seq<Tx>, p: nat)
    requires LeadsTo(events, s) && |s| == 2 && s[0].got == s[1].got == 0 && !s[0].done && p <= |s[0].wants|
    ensures LeadsTo(events + seq(p, _ => Move(0)), [s[0].(got := p), s[1]])
    decreases p
  {
    if p == 0 {
      assert events + seq(p, _ => Move(0)) == events && s == [s[0].(got := 0), s[1]];
    } else {
      FirstTakes(events, s, p - 1);
      OneMoreEvent(events + seq(p - 1, _ => Move(0)), [s[0].(got := p - 1), s[1]], Move(0), [s[0].(got := p), s[1]]);
      assert events + seq(p, _ => Move(0)) == events + seq(p - 1, _ => Move(0)) + [Move(0)];
    }
  }

  lemma SecondMoves(s: seq<Tx>)
    requires |s| == 2 && WantsMore(s[1]) && Apart(s[0].wants, s[0].got, s[1].wants, s[1].got + 1)
    ensures Enabled(s, Move(1))
  {
    forall k | 0 <= k < s[0].got
      ensures !Against(s[0].wants[k], s[1].wants[s[1].got])
    {
      AgainstBoth(s[0].wants[k], s[1].wants[s[1].got]);
    }
  }

  lemma {:induction false} SecondTakes(events: seq<Event>, s: seq<Tx>, q: nat)
    requires LeadsTo(events, s) && |s| == 2 && s[1].got == 0 && !s[1].done
    requires Apart(s[0].wants, s[0].got, s[1].wants, q)
    ensures LeadsTo(events + seq(q, _ => Move(1)), [s[0], s[1].(got := q)])
    decreases q
  {
    if q == 0 {
      assert events + seq(q, _ => Move(1)) == events && s == [s[0], s[1].(got := 0)];
    } else {
      SecondTakes(events, s, q - 1);
      var before := [s[0], s[1].(got := q - 1)];
      SecondMoves(before);
      OneMoreEvent(events + seq(q - 1, _ => Move(1)), before, Move(1), [s[0], s[1].(got := q)]);
      assert events + seq(q, _ => Move(1)) == events + seq(q - 1, _ => Move(1)) + [Move(1)];
    }
  }

  lemma BothTake(c: Command, p: nat, d: Command, q: nat)
    requires Apart(Wants(c), p, Wants(d), q)
    ensures LeadsTo(Race(c, p, d, q), Pair(c, p, d, q))
  {
    BothBegin(c, d);
    FirstTakes([Begin(c), Begin(d)], Pair(c, 0, d, 0), p);
    SecondTakes([Begin(c), Begin(d)] + seq(p, _ => Move(0)), Pair(c, p, d, 0), q);
  }

  lemma CrossedIsDeadlocked(s: seq<Tx>)
    requires |s| == 2 && !s[0].done && !s[1].done && Crossed(s[0].wants, s[0].got, s[1].wants, s[1].got)
    ensures Deadlocked(s)
  {
    assert Unfinished(s, 0);
    assert Blocks(s[1], s[0].wants[s[0].got]) && Blocks(s[0], s[1].wants[s[1].got]);
  }

  lemma CrossedDeadlock(kinds: set<Kind>, c: Command, p: nat, d: Command, q: nat)
    requires Crossed(Wants(c), p, Wants(d), q) && KindOf(c) in kinds && KindOf(d) in kinds
    ensures !NeverDeadlocks(kinds)
  {
    BothTake(c, p, d, q);
    CrossedIsDeadlocked(Pair(c, p, d, q));
    RaceUses(kinds, c, p, d, q);
    assert Deadlocked(After(Race(c, p, d, q)));
  }

  lemma RaceUses(kinds: set<Kind>, c: Command, p: nat, d: Command, q: nat)
    requires KindOf(c) in kinds && KindOf(d) in kinds
    ensures Uses(kinds, Race(c, p, d, q))
  {
  }

  // One command of each kind, all of one user on one row of each table.
  function Example(k: Kind): Command {
    match k
    case KBuy => Buy(0, 0)
    case KRemove => Remove(0, 0)
    case KSellFinanced => SellFinanced(0, 0, 0)
    case KRepair => Repair(0, 0, 0)
    case KAssign => Assign(0, 0, 0, 0)
    case KUnassign => Unassign(0, 0)
    case KBorrow => Borrow(0)
    case KRepay => Repay(0, 0)
    case KSettle => SettleFinancing(0, 0, 0)
    case KRefinance => Refinance(0, 0)
    case KInstallment => Installment(0, 0)
    case KLateFee => LateFee(0, 0)
    case KStaleInstallment => StaleInstallment(0, 0)
    case KStaleFee => StaleFee(0, 0)
    case KGround => Ground(0, 0)
    case KCountDay => CountDay(0)
    case KTick => Tick(0, [0])
    case KBankrupt => Bankrupt(0, [0], [0], [0])
  }

  lemma ExamplesDeadlock(kinds: set<Kind>, k: Kind, p: nat, l: Kind, q: nat)
    requires Crossed(Wants(Example(k)), p, Wants(Example(l)), q) && k in kinds && l in kinds
    ensures !NeverDeadlocks(kinds)
  {
    ExampleIsOfKind(k);
    ExampleIsOfKind(l);
    CrossedDeadlock(kinds, Example(k), p, Example(l), q);
  }

  lemma ExampleIsOfKind(k: Kind)
    ensures KindOf(Example(k)) == k
  {
  }

  // Where it takes the user's row.
  function UserAt(k: Kind): nat {
    match k
    case KRemove => 2
    case KSellFinanced => 2
    case KRepair => 3
    case KRepay => 2
    case KSettle => 2
    case KTick => 2
    case _ => 1
  }

  lemma Cross(c: seq<Lock>, p: nat, d: seq<Lock>, q: nat, a: nat, b: nat)
    requires a < q < |d| && b < p < |c| && Against(d[a], c[p]) && Against(c[b], d[q])
    requires forall k, l :: 0 <= k < p && 0 <= l < q ==> d[l].row != c[k].row
    ensures Crossed(c, p, d, q)
  {
  }

  lemma BorrowingDeadlocks(kinds: set<Kind>, l: Kind)
    requires KBorrow in kinds && l in kinds && l in ACCOUNT_THEN_USER
    ensures !NeverDeadlocks(kinds)
  {
    var c, d, q := Wants(Borrow(0)), Wants(Example(l)), UserAt(l);
    assert d[q - 1].row == AccountRow(0) && d[q] == Changing(UserRow(0));
    Cross(c, 1, d, q, q - 1, 0);
    ExamplesDeadlock(kinds, KBorrow, 1, l, q);
  }

  lemma BuyingDeadlocks(kinds: set<Kind>)
    requires KBuy in kinds && KRepair in kinds
    ensures !NeverDeadlocks(kinds)
  {
    Cross(Wants(Buy(0, 0)), 2, Wants(Repair(0, 0, 0)), 2, 1, 0);
    ExamplesDeadlock(kinds, KBuy, 2, KRepair, 2);
  }

  // A bankruptcy holds the user alone when it wants the aircraft, and the user and its aircraft when it wants the loan.
  lemma BankruptcyDeadlocks(kinds: set<Kind>, l: Kind)
    requires KBankrupt in kinds && l in kinds && l in AIRCRAFT_THEN_USER + LOAN_THEN_USER
    ensures !NeverDeadlocks(kinds)
  {
    var c, d, q := Wants(Example(KBankrupt)), Wants(Example(l)), UserAt(l);
    assert c[0] == Changing(UserRow(0)) && c[1] == Changing(AircraftRow(0, 0)) && c[2] == Changing(LoanRow(0, 0));
    var p := if l in AIRCRAFT_THEN_USER then 1 else 2;
    Cross(c, p, d, q, 0, 0);
    ExamplesDeadlock(kinds, KBankrupt, p, l, q);
  }

  // A settling repayment or the tick holds account and user.
  lemma AircraftDeadlock(kinds: set<Kind>, k: Kind, l: Kind)
    requires k in kinds && l in kinds && k in USER_THEN_AIRCRAFT && l in AIRCRAFT_THEN_USER
    ensures !NeverDeadlocks(kinds)
  {
    if k == KBankrupt {
      BankruptcyDeadlocks(kinds, l);
    } else {
      var q := if l == KRepair then 2 else 1;
      CashBeforeAircraft(Wants(Example(k)), l, q);
      ExamplesDeadlock(kinds, k, 3, l, q);
    }
  }

  lemma CashBeforeAircraft(c: seq<Lock>, l: Kind, q: nat)
    requires l in AIRCRAFT_THEN_USER && q == if l == KRepair then 2 else 1
    requires |c| == 4 && (c[0].row.LoanRow? || c[0].row.Advisory?) && c[1].row == AccountRow(0)
    requires c[2] == Changing(UserRow(0)) && c[3] == Changing(AircraftRow(0, 0))
    requires l != KGround ==> Conflicts(c[1].mode, NoKeyUpdate)
    ensures Crossed(c, 3, Wants(Example(l)), q)
  {
    Cross(c, 3, Wants(Example(l)), q, 0, if l == KGround then 2 else 1);
  }

  // An installment holds account and user.
  lemma LoanDeadlock(kinds: set<Kind>, k: Kind, l: Kind)
    requires k in kinds && l in kinds && k in USER_THEN_LOAN && l in LOAN_THEN_USER
    ensures !NeverDeadlocks(kinds)
  {
    if k == KBankrupt {
      BankruptcyDeadlocks(kinds, l);
    } else {
      var c, d := Wants(Example(k)), Wants(Example(l));
      assert c[0] == Changing(AccountRow(0)) && c[1] == Changing(UserRow(0)) && c[2] == Changing(LoanRow(0, 0));
      Cross(c, 2, d, 1, 0, if l == KRepay || l == KSettle then 0 else 1);
      ExamplesDeadlock(kinds, k, 2, l, 1);
    }
  }

  lemma SettledDeadlock(kinds: set<Kind>, k: Kind)
    requires k in kinds && KStaleFee in kinds && k in USER_THEN_SETTLED
    ensures !NeverDeadlocks(kinds)
  {
    var c, p := Wants(Example(k)), UserAt(k) + 1;
    assert c[p - 1] == Changing(UserRow(0)) && c[p] == Changing(SettledLoanRow(0, 0));
    Cross(c, p, Wants(StaleFee(0, 0)), 1, 0, p - 1);
    ExamplesDeadlock(kinds, k, p, KStaleFee, 1);
  }

  /** Commands of some kinds can deadlock exactly when two of the kinds clash; then two such commands of one player
      already do. */
  lemma NeverDeadlocksIff(kinds: set<Kind>)
    ensures NeverDeadlocks(kinds) <==> Safe(kinds)
  {
    if Safe(kinds) {
      forall events: seq<Event> | IsRun(events) && Uses(kinds, events)
        ensures !Deadlocked(After(events))
      {
        SafeKindsNeverDeadlock(kinds, events);
      }
    } else {
      var k, l :| k in kinds && l in kinds && Clash(k, l);
      if k == KBorrow && l in ACCOUNT_THEN_USER {
        BorrowingDeadlocks(kinds, l);
      } else if k == KBuy && l == KRepair {
        BuyingDeadlocks(kinds);
      } else if k in USER_THEN_AIRCRAFT && l in AIRCRAFT_THEN_USER {
        AircraftDeadlock(kinds, k, l);
      } else if k in USER_THEN_LOAN && l in LOAN_THEN_USER {
        LoanDeadlock(kinds, k, l);
      } else {
        SettledDeadlock(kinds, k);
      }
    }
  }

  const PLAYERS :=
    {KBuy, KRemove, KSellFinanced, KRepair, KAssign, KUnassign, KBorrow, KRepay, KSettle, KRefinance, KGround}

  // Borrowing with another movement of cash, purchases with repairs, or settling a financing with what takes an
  // aircraft first and the user after it.
  predicate Mixes(kinds: set<Kind>) {
    || (KBorrow in kinds && kinds * ACCOUNT_THEN_USER != {})
    || (KBuy in kinds && KRepair in kinds)
    || (KSettle in kinds && kinds * AIRCRAFT_THEN_USER != {})
  }

  lemma ClashMixes(kinds: set<Kind>, k: Kind, l: Kind)
    requires kinds <= PLAYERS && k in kinds && l in kinds && Clash(k, l)
    ensures Mixes(kinds)
  {
    assert l in kinds * ACCOUNT_THEN_USER || l in kinds * AIRCRAFT_THEN_USER;
  }

  /** What players order never deadlocks exactly when it leaves out one side of each of those: with purchases there
      must be no repairs, with loans no other cash, with repayments that settle a financing no sales, terminations,
      repairs or seat changes. */
  lemma PlayersNeverDeadlockIff(kinds: set<Kind>)
    requires kinds <= PLAYERS
    ensures NeverDeadlocks(kinds) <==> !Mixes(kinds)
  {
    NeverDeadlocksIff(kinds);
    if !Safe(kinds) {
      var k, l :| k in kinds && l in kinds && Clash(k, l);
      ClashMixes(kinds, k, l);
    }
    if Mixes(kinds) {
      MixClashes(kinds);
    }
  }

  lemma MixClashes(kinds: set<Kind>)
    requires Mixes(kinds)
    ensures !Safe(kinds)
  {
    if KBorrow in kinds && kinds * ACCOUNT_THEN_USER != {} {
      var l :| l in kinds * ACCOUNT_THEN_USER;
      assert Clash(KBorrow, l);
    } else if KBuy in kinds && KRepair in kinds {
      assert Clash(KBuy, KRepair);
    } else {
      var l :| l in kinds * AIRCRAFT_THEN_USER;
      assert Clash(KSettle, l);
    }
  }
}
