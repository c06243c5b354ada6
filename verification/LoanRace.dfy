/**
 The day boundary's payment loop (apps/api/internal/engine/dayboundary.go:86-265) beside everybody else: it reads the
 balance and the loans once, without a lock, and then writes loan after loan by its id, whatever the player has done to
 it since.
 */
module LoanRace {
  import opened Sequences
  import opened Money
  import opened Airline
  import opened Fleet
  import opened Bank
  import opened DayBoundary
  import opened AirlineRuns
  import opened LoanProofs

  // A loan as the loop has read it.
  datatype Entry = Entry(id: nat, installment: real, collateral: Option<nat>)

  // `cash` is the loop's own balance, `todo` the loans it has not come to; `late` has missed its last installment.
  datatype Loop =
    | Idle
    | Counted(service: Service, cash: real)
    | Serving(service: Service, cash: real, todo: seq<Entry>)
    | Ending(service: Service, cash: real, todo: seq<Entry>, late: Entry)
    | Seizing(service: Service, cash: real, todo: seq<Entry>, late: Entry)

  datatype World = World(airline: Airline, loop: Loop)

  // `Next` is the loop's next statement, which can fail; `Other` any whole command of anybody else.
  datatype Event = Begin(financing: bool) | Next(ok: bool) | Other(call: Call)

  function ServiceFor(financing: bool): Service {
    if financing then FINANCING_SERVICE else LOAN_SERVICE
  }

  // Loans without an installment are passed over.
  function Entries(s: Service, loans: seq<Loan>, from: nat): seq<Entry>
    decreases |loans| - from
  {
    if from >= |loans| then []
    else
      var l := loans[from];
      (if Serves(s, l) && Installment(l) > 0.0 then [Entry(from, Installment(l), l.collateral)] else [])
      + Entries(s, loans, from + 1)
  }

  function Fined(s: Service, l: Loan, installment: real): Loan {
    l.(remaining := Round(l.remaining as real + Penalty(installment, s.feePct)), missed := l.missed + 1)
  }

  // The loop's updates are by the id alone.
  function PayOn(a: Airline, e: Entry): Airline {
    if e.id < |a.loans| then SetLoan(a, e.id, AfterPayment(a.loans[e.id], e.installment)) else a
  }

  function FineOn(s: Service, a: Airline, e: Entry): Airline {
    if e.id < |a.loans| then SetLoan(a, e.id, Fined(s, a.loans[e.id], e.installment)) else a
  }

  function EndOn(s: Service, a: Airline, e: Entry): Airline {
    if e.id < |a.loans| then SetLoan(a, e.id, a.loans[e.id].(status := s.outcome)) else a
  }

  function MissedAll(s: Service, a: Airline, id: nat): bool {
    id < |a.loans| && a.loans[id].missed + 1 >= s.limit
  }

  function ServeNext(a: Airline, s: Service, cash: real, e: Entry, rest: seq<Entry>, ok: bool): World {
    if !ok then World(a, Serving(s, cash, rest))
    else if AtLeast(cash, e.installment) then
      var paid := DebitTx(a, e.installment, "financing", s.subcategory, false);
      if paid.None? then World(a, Serving(s, cash, rest))
      else World(PayOn(paid.value, e), Serving(s, cash - e.installment, rest))
    else
      World(FineOn(s, a, e),
            if MissedAll(s, a, e.id) then Ending(s, cash, rest, e) else Serving(s, cash, rest))
  }

  function NextStatement(w: World, ok: bool): World {
    var a := w.airline;
    match w.loop
    case Idle => w
    case Counted(s, cash) => if ok then World(a, Serving(s, cash, Entries(s, a.loans, 0))) else World(a, Idle)
    case Serving(s, cash, todo) =>
      if todo == [] then World(a, Idle) else ServeNext(a, s, cash, todo[0], todo[1..], ok)
    case Ending(s, cash, todo, late) =>
      World(if ok then EndOn(s, a, late) else a, Seizing(s, cash, todo, late))
    case Seizing(s, cash, todo, late) =>
      World(if ok then GroundCollateral(a, late.collateral) else a, Serving(s, cash, todo))
  }

  function Step(w: World, e: Event): World {
    match e
    case Begin(financing) =>
      if w.loop.Idle? then w.(loop := Counted(ServiceFor(financing), w.airline.account.balance as real)) else w
    case Next(ok) => NextStatement(w, ok)
    case Other(call) => w.(airline := Exec(w.airline, call.command, call.faults).0)
  }

  function Play(w: World, events: seq<Event>): World
    decreases |events|
  {
    if events == [] then w else Play(Step(w, events[0]), events[1..])
  }

  lemma {:induction false} PlayInTurn(w: World, first: seq<Event>, second: seq<Event>)
    ensures Play(w, first + second) == Play(Play(w, first), second)
    decreases |first|
  {
    if first == [] {
      assert first + second == second;
    } else {
      assert (first + second)[1..] == first[1..] + second;
      PlayInTurn(Step(w, first[0]), first[1..], second);
    }
  }

  // ----- the loop by itself

  lemma {:induction false} EntriesOfTheRest(s: Service, loans: seq<Loan>, loans': seq<Loan>, from: nat)
    requires |loans| == |loans'| && forall i :: from <= i < |loans| ==> loans[i] == loans'[i]
    ensures Entries(s, loans, from) == Entries(s, loans', from)
    decreases |loans| - from
  {
    if from < |loans| {
      EntriesOfTheRest(s, loans, loans', from + 1);
    }
  }

  function Statements(n: nat): seq<Event> {
    seq(n, _ => Next(true))
  }

  lemma OneByOne(w: World)
    ensures Play(w, Statements(1)) == NextStatement(w, true)
    ensures Play(w, Statements(3)) == NextStatement(NextStatement(NextStatement(w, true), true), true)
  {
    assert Statements(3)[1..] == Statements(2) && Statements(2)[1..] == Statements(1) && Statements(1)[1..] == [];
  }

  lemma EndedIsMissed(s: Service, l: Loan)
    ensures AfterMiss(s, l)
            == Fined(s, l, Installment(l)).(status := if l.missed + 1 >= s.limit then s.outcome else l.status)
  {
  }

  // A loan that misses its last installment is fined, then ended, then loses its collateral.
  lemma LastMissInTurn(s: Service, a: Airline, cash: real, e: Entry, rest: seq<Entry>)
    requires MissedAll(s, a, e.id) && e.installment == Installment(a.loans[e.id])
    requires e.collateral == a.loans[e.id].collateral
    ensures var fined := World(FineOn(s, a, e), Ending(s, cash, rest, e));
            NextStatement(NextStatement(fined, true), true) == World(Miss(s, a, e.id), Serving(s, cash, rest))
  {
    var l := a.loans[e.id];
    var m := AfterMiss(s, l);
    EndedIsMissed(s, l);
    assert a.loans[e.id := Fined(s, l, e.installment)][e.id := m] == a.loans[e.id := m];
    assert EndOn(s, FineOn(s, a, e), e) == SetLoan(a, e.id, m);
  }

  lemma FirstStatement(s: Service, a: Airline, cash: real, e: Entry, rest: seq<Entry>)
    ensures NextStatement(World(a, Serving(s, cash, [e] + rest)), true) == ServeNext(a, s, cash, e, rest, true)
  {
    assert ([e] + rest)[1..] == rest;
  }

  lemma OneStatement(s: Service, a: Airline, cash: real, e: Entry, rest: seq<Entry>)
    requires e.id < |a.loans| && e.installment == Installment(a.loans[e.id]) > 0.0 && Serves(s, a.loans[e.id])
    requires AtLeast(cash, e.installment) || !MissedAll(s, a, e.id)
    ensures var (a', cash') := ServeOne(s, a, cash, e.id);
            ServeNext(a, s, cash, e, rest, true) == World(a', Serving(s, cash', rest))
  {
    var l := a.loans[e.id];
    EndedIsMissed(s, l);
  }

  // The loop's statements on one loan, in one go.
  lemma OneLoanInTurn(s: Service, a: Airline, cash: real, id: nat) returns (n: nat)
    requires id < |a.loans|
    ensures var (a', cash') := ServeOne(s, a, cash, id);
            && Play(World(a, Serving(s, cash, Entries(s, a.loans, id))), Statements(n))
               == World(a', Serving(s, cash', Entries(s, a'.loans, id + 1)))
  {
    var l := a.loans[id];
    EntriesOfTheRest(s, a.loans, ServeOne(s, a, cash, id).0.loans, id + 1);
    if !Serves(s, l) || Installment(l) <= 0.0 {
      n := 0;
      assert Statements(0) == [] && Entries(s, a.loans, id) == Entries(s, a.loans, id + 1);
    } else {
      var e, rest := Entry(id, Installment(l), l.collateral), Entries(s, a.loans, id + 1);
      var w := World(a, Serving(s, cash, [e] + rest));
      assert Entries(s, a.loans, id) == [e] + rest;
      OneByOne(w);
      FirstStatement(s, a, cash, e, rest);
      if AtLeast(cash, Installment(l)) || !MissedAll(s, a, id) {
        n := 1;
        OneStatement(s, a, cash, e, rest);
      } else {
        n := 3;
        LastMissInTurn(s, a, cash, e, rest);
      }
    }
  }

  lemma {:induction false} RestInTurn(s: Service, a: Airline, cash: real, id: nat) returns (n: nat)
    ensures Play(World(a, Serving(s, cash, Entries(s, a.loans, id))), Statements(n))
            == World(ServeFrom(s, a, cash, id), Idle)
    decreases |a.loans| - id
  {
    var w := World(a, Serving(s, cash, Entries(s, a.loans, id)));
    if id >= |a.loans| {
      n := 1;
      assert Statements(1)[1..] == [];
    } else {
      var m := OneLoanInTurn(s, a, cash, id);
      var (a', cash') := ServeOne(s, a, cash, id);
      var k := RestInTurn(s, a', cash', id + 1);
      PlayInTurn(w, Statements(m), Statements(k));
      n := m + k;
      assert Statements(n) == Statements(m) + Statements(k);
    }
  }

  /** A loop nobody comes between is the service of the loans as one step. */
  lemma LoopAloneIsServe(a: Airline, financing: bool)
    ensures exists n: nat :: Play(World(a, Idle), [Begin(financing)] + Statements(n))
                             == World(Serve(ServiceFor(financing), a), Idle)
  {
    var s := ServiceFor(financing);
    var cash := a.account.balance as real;
    var m := RestInTurn(s, a, cash, 0);
    var n := m + 1;
    var counted := World(a, Counted(s, cash));
    assert ([Begin(financing)] + Statements(n))[1..] == Statements(n) && Statements(n)[1..] == Statements(m);
    assert Step(counted, Next(true)) == World(a, Serving(s, cash, Entries(s, a.loans, 0)));
    assert Play(World(a, Idle), [Begin(financing)] + Statements(n)) == World(Serve(s, a), Idle);
  }

  // ----- what the loop is about to do

  predicate Mentions(todo: seq<Entry>, id: nat)
    decreases |todo|
  {
    todo != [] && (todo[0].id == id || Mentions(todo[1..], id))
  }

  // Each a different one of n loans.
  predicate Proper(todo: seq<Entry>, n: nat)
    decreases |todo|
  {
    todo == []
    || (todo[0].id < n && todo[0].installment > 0.0 && !Mentions(todo[1..], todo[0].id) && Proper(todo[1..], n))
  }

  predicate Inv(w: World) {
    && (w.loop.Idle? || w.loop.service in {LOAN_SERVICE, FINANCING_SERVICE})
    && (w.loop.Serving? || w.loop.Ending? || w.loop.Seizing? ==> Proper(w.loop.todo, |w.airline.loans|))
    && (w.loop.Ending? ==> w.loop.late.id < |w.airline.loans| && !Mentions(w.loop.todo, w.loop.late.id))
  }

  // The loop has read the loan and will write to it.
  predicate Pending(loop: Loop, id: nat) {
    match loop
    case Serving(_, _, todo) => Mentions(todo, id)
    case Ending(_, _, todo, late) => late.id == id || Mentions(todo, id)
    case Seizing(_, _, todo, _) => Mentions(todo, id)
    case _ => false
  }

  lemma {:induction false} EntriesAreProper(s: Service, loans: seq<Loan>, from: nat)
    ensures Proper(Entries(s, loans, from), |loans|)
    ensures forall id: nat :: Mentions(Entries(s, loans, from), id) ==> from <= id < |loans| && Serves(s, loans[id])
    decreases |loans| - from
  {
    if from < |loans| {
      EntriesAreProper(s, loans, from + 1);
      var l, rest := loans[from], Entries(s, loans, from + 1);
      if Serves(s, l) && Installment(l) > 0.0 {
        assert ([Entry(from, Installment(l), l.collateral)] + rest)[1..] == rest;
      } else {
        assert [] + rest == rest;
      }
    }
  }

  lemma {:induction false} ProperWithMore(todo: seq<Entry>, n: nat, m: nat)
    requires Proper(todo, n) && n <= m
    ensures Proper(todo, m)
    decreases |todo|
  {
    if todo != [] {
      ProperWithMore(todo[1..], n, m);
    }
  }

  lemma StepKeepsInv(w: World, e: Event)
    requires Inv(w)
    ensures Inv(Step(w, e)) && |w.airline.loans| <= |Step(w, e).airline.loans|
  {
    match e
    case Begin(_) =>
    case Next(_) =>
      if w.loop.Counted? {
        EntriesAreProper(w.loop.service, w.airline.loans, 0);
      }
    case Other(call) =>
      ExecEvolves(w.airline, call.command, call.faults);
      if w.loop.Serving? || w.loop.Ending? || w.loop.Seizing? {
        ProperWithMore(w.loop.todo, |w.airline.loans|, |Step(w, e).airline.loans|);
      }
  }

  lemma {:induction false} PlayKeepsInv(w: World, events: seq<Event>)
    requires Inv(w)
    ensures Inv(Play(w, events)) && |w.airline.loans| <= |Play(w, events).airline.loans|
    decreases |events|
  {
    if events != [] {
      StepKeepsInv(w, events[0]);
      PlayKeepsInv(Step(w, events[0]), events[1..]);
    }
  }

  // ----- loans the loop has not read

  lemma UnreadStepKeeps(w: World, e: Event, id: nat)
    requires Inv(w) && id < |w.airline.loans| && !w.airline.loans[id].status.Active? && !Pending(w.loop, id)
    ensures id < |Step(w, e).airline.loans| && Step(w, e).airline.loans[id] == w.airline.loans[id]
    ensures !Pending(Step(w, e).loop, id)
  {
    match e
    case Begin(_) =>
    case Next(_) =>
      if w.loop.Counted? {
        EntriesAreProper(w.loop.service, w.airline.loans, 0);
      }
    case Other(call) =>
      ExecEvolves(w.airline, call.command, call.faults);
  }

  /** Once a loan is not active and no loop has it before it, nothing that anybody does changes it, in whatever order,
      and no later loop reads it. */
  lemma {:induction false} UnreadLoansNeverChange(w: World, events: seq<Event>, id: nat)
    requires Inv(w) && id < |w.airline.loans| && !w.airline.loans[id].status.Active? && !Pending(w.loop, id)
    ensures id < |Play(w, events).airline.loans| && Play(w, events).airline.loans[id] == w.airline.loans[id]
    decreases |events|
  {
    if events != [] {
      UnreadStepKeeps(w, events[0], id);
      StepKeepsInv(w, events[0]);
      UnreadLoansNeverChange(Step(w, events[0]), events[1..], id);
    }
  }

  // ----- loans it has

  // Whether the loop's cash can fall short of the loan's installment when it comes to it: what it can pay on the way it
  // may pay, or fail to.
  predicate CanRunShort(cash: real, todo: seq<Entry>, id: nat)
    decreases |todo|
  {
    todo != []
    && if todo[0].id == id then !AtLeast(cash, todo[0].installment)
       else || CanRunShort(cash, todo[1..], id)
            || (AtLeast(cash, todo[0].installment) && CanRunShort(cash - todo[0].installment, todo[1..], id))
  }

  // Its next miss would be its last, and the loop may be about to record it; or has recorded it and is ending the loan.
  predicate InDanger(w: World, id: nat)
    requires id < |w.airline.loans|
  {
    match w.loop
    case Serving(s, cash, todo) => MissedAll(s, w.airline, id) && CanRunShort(cash, todo, id)
    case Ending(s, cash, todo, late) =>
      late.id == id || (MissedAll(s, w.airline, id) && CanRunShort(cash, todo, id))
    case Seizing(s, cash, todo, _) => MissedAll(s, w.airline, id) && CanRunShort(cash, todo, id)
    case _ => false
  }

  ghost predicate StaysPaidOff(w: World, id: nat) {
    forall events :: id < |Play(w, events).airline.loans| && Play(w, events).airline.loans[id].status.PaidOff?
  }

  lemma {:induction false} OnlyMentionedRunShort(cash: real, todo: seq<Entry>, id: nat)
    requires CanRunShort(cash, todo, id)
    ensures Mentions(todo, id)
    decreases |todo|
  {
    if todo[0].id != id {
      if CanRunShort(cash, todo[1..], id) {
        OnlyMentionedRunShort(cash, todo[1..], id);
      } else {
        OnlyMentionedRunShort(cash - todo[0].installment, todo[1..], id);
      }
    }
  }

  lemma NotMentionedIsSafe(w: World, id: nat)
    requires id < |w.airline.loans| && !Pending(w.loop, id)
    ensures !InDanger(w, id)
  {
    if InDanger(w, id) {
      OnlyMentionedRunShort(w.loop.cash, w.loop.todo, id);
    }
  }

  ghost predicate Safe(w: World, id: nat) {
    Inv(w) && id < |w.airline.loans| && w.airline.loans[id].status.PaidOff? && !InDanger(w, id)
  }

  lemma ServingKeepsSafe(w: World, ok: bool, id: nat)
    requires Safe(w, id) && w.loop.Serving? && w.loop.todo != []
    ensures Safe(Step(w, Next(ok)), id)
  {
    StepKeepsInv(w, Next(ok));
    var w' := Step(w, Next(ok));
    var e := w.loop.todo[0];
    if e.id == id {
      assert !Pending(w'.loop, id);
      NotMentionedIsSafe(w', id);
    } else {
      assert w'.airline.loans[id] == w.airline.loans[id];
    }
  }

  lemma StepKeepsSafe(w: World, e: Event, id: nat)
    requires Safe(w, id)
    ensures Safe(Step(w, e), id)
  {
    if e.Next? && w.loop.Serving? && w.loop.todo != [] {
      ServingKeepsSafe(w, e.ok, id);
    } else {
      StepKeepsInv(w, e);
      if !Pending(w.loop, id) {
        UnreadStepKeeps(w, e, id);
        NotMentionedIsSafe(Step(w, e), id);
      } else if e.Other? {
        ExecEvolves(w.airline, e.call.command, e.call.faults);
      }
    }
  }

  lemma {:induction false} SafeStaysPaidOff(w: World, events: seq<Event>, id: nat)
    requires Safe(w, id)
    ensures Safe(Play(w, events), id)
    decreases |events|
  {
    if events != [] {
      StepKeepsSafe(w, events[0], id);
      SafeStaysPaidOff(Step(w, events[0]), events[1..], id);
    }
  }

  // ----- how it is lost

  // A window that brings the balance to at least `cents`.
  function Earns(a: Airline, cents: nat): Event {
    var missing := if cents > a.account.balance then cents - a.account.balance else 0;
    Other(Call(Simulate([Posting(TicketRevenue, missing as real)]), NO_FAULTS))
  }

  lemma EarningIsEnough(w: World, cents: nat)
    ensures var w' := Step(w, Earns(w.airline, cents));
            w' == w.(airline := w.airline.(account := w'.airline.account)) && w'.airline.account.balance >= cents
  {
    var a := w.airline;
    var missing := if cents > a.account.balance then cents - a.account.balance else 0;
    RoundWhole(missing);
    var postings := [Posting(TicketRevenue, missing as real)];
    assert postings[..0] == [];
    assert Post(a, postings[..0], NO_FAULTS) == Some(a);
  }

  lemma PaysTheFirst(w: World) returns (events: seq<Event>)
    requires w.loop.Serving? && w.loop.todo != [] && w.loop.todo[0].installment > 0.0
    requires AtLeast(w.loop.cash, w.loop.todo[0].installment)
    ensures var w', e := Play(w, events), w.loop.todo[0];
            && w'.loop == Serving(w.loop.service, w.loop.cash - e.installment, w.loop.todo[1..])
            && |w'.airline.loans| == |w.airline.loans|
            && forall i :: 0 <= i < |w.airline.loans| && i != e.id ==> w'.airline.loans[i] == w.airline.loans[i]
  {
    var cents := Round(w.loop.todo[0].installment);
    var earns := Earns(w.airline, cents);
    EarningIsEnough(w, cents);
    events := [earns, Next(true)];
    assert events[1..] == [Next(true)] && [Next(true)][1..] == [];
    assert Play(w, events) == Step(Step(w, earns), Next(true));
  }

  lemma PassesTheFirst(w: World)
    requires w.loop.Serving? && w.loop.todo != []
    ensures Play(w, [Next(false)]) == w.(loop := Serving(w.loop.service, w.loop.cash, w.loop.todo[1..]))
  {
    assert [Next(false)][1..] == [];
  }

  lemma {:induction false} ShortLoopEnds(w: World, id: nat) returns (events: seq<Event>)
    requires Inv(w) && w.loop.Serving? && id < |w.airline.loans| && MissedAll(w.loop.service, w.airline, id)
    requires CanRunShort(w.loop.cash, w.loop.todo, id)
    ensures Inv(Play(w, events)) && id < |Play(w, events).airline.loans|
    ensures Play(w, events).airline.loans[id].status == w.loop.service.outcome
    decreases |w.loop.todo|
  {
    if w.loop.todo[0].id == id {
      events := [Next(true), Next(true)];
      assert events[1..] == [Next(true)] && [Next(true)][1..] == [];
    } else {
      var first: seq<Event>;
      if CanRunShort(w.loop.cash, w.loop.todo[1..], id) {
        first := [Next(false)];
        PassesTheFirst(w);
      } else {
        first := PaysTheFirst(w);
      }
      PlayKeepsInv(w, first);
      var rest := ShortLoopEnds(Play(w, first), id);
      events := first + rest;
      PlayInTurn(w, first, rest);
    }
    PlayKeepsInv(w, events);
  }

  lemma DangerIsReal(w: World, id: nat) returns (events: seq<Event>)
    requires Inv(w) && id < |w.airline.loans| && InDanger(w, id)
    ensures id < |Play(w, events).airline.loans| && Play(w, events).airline.loans[id].status == w.loop.service.outcome
  {
    if w.loop.Ending? && w.loop.late.id == id {
      events := [Next(true)];
      assert events[1..] == [];
    } else {
      // Statements on a loan that the loop is ending fail.
      var first := if w.loop.Serving? then [] else if w.loop.Ending? then [Next(false), Next(false)] else [Next(false)];
      assert [Next(false), Next(false)][1..] == [Next(false)] && [Next(false)][1..] == [];
      PlayKeepsInv(w, first);
      assert Play(w, first) == w.(loop := Serving(w.loop.service, w.loop.cash, w.loop.todo));
      var rest := ShortLoopEnds(Play(w, first), id);
      events := first + rest;
      PlayInTurn(w, first, rest);
    }
  }

  /** Wherever a loop may be and whoever may interfere, a loan paid off stays paid off, whatever happens next, exactly
      when the loop is not ending it, and cannot run short at it when one more miss is its last. */
  lemma PaidOffStaysIff(a: Airline, before: seq<Event>, id: nat)
    requires var w := Play(World(a, Idle), before);
             id < |w.airline.loans| && w.airline.loans[id].status.PaidOff?
    ensures var w := Play(World(a, Idle), before);
            StaysPaidOff(w, id) <==> !InDanger(w, id)
  {
    var w := Play(World(a, Idle), before);
    PlayKeepsInv(World(a, Idle), before);
    if InDanger(w, id) {
      var events := DangerIsReal(w, id);
      assert !Play(w, events).airline.loans[id].status.PaidOff?;
    } else {
      forall events: seq<Event>
        ensures id < |Play(w, events).airline.loans| && Play(w, events).airline.loans[id].status.PaidOff?
      {
        SafeStaysPaidOff(w, events, id);
      }
    }
  }

  // ----- what it costs

  // The loop reads its loans, and then the player settles the only one.
  const REPAID_MEANWHILE := [Next(true), Other(Call(RepayLoan(0, None), NO_FAULTS))]

  function Settled(l: Loan): Loan {
    l.(remaining := 0, status := PaidOff)
  }

  lemma SettlesMeanwhile(a: Airline, financing: bool, p: nat)
    requires |a.loans| == 1 && Serves(ServiceFor(financing), a.loans[0]) && a.loans[0].weekly == p > 0
    requires 0 < a.loans[0].remaining <= a.account.balance
    ensures var l, cash := a.loans[0], a.account.balance;
            var w := Play(World(a, Idle), [Begin(financing)] + REPAID_MEANWHILE);
            && w.loop == Serving(ServiceFor(financing), cash as real, [Entry(0, p as real, l.collateral)])
            && w.airline.loans == [Settled(l)] && w.airline.account.balance == cash - l.remaining
            && w.airline.fleet == Released(a, Settled(l)).fleet
  {
    var l, s, cash := a.loans[0], ServiceFor(financing), a.account.balance;
    RoundWhole(l.remaining);
    RoundWhole(cash);
    RoundWhole(0);
    var repays := Other(Call(RepayLoan(0, None), NO_FAULTS));
    var events := [Begin(financing)] + REPAID_MEANWHILE;
    assert events[1..] == [Next(true), repays] && [Next(true), repays][1..] == [repays] && [repays][1..] == [];
    var entry := Entry(0, p as real, l.collateral);
    assert Entries(s, a.loans, 1) == [] && Entries(s, a.loans, 0) == [entry] + [] == [entry];
    var counted := World(a, Counted(s, cash as real));
    assert Step(World(a, Idle), Begin(financing)) == counted;
    assert Step(counted, Next(true)) == World(a, Serving(s, cash as real, [entry]));
    var w := World(a, Serving(s, cash as real, [entry]));
    assert Play(w, [repays]) == Step(w, repays);
    assert Play(counted, [Next(true), repays]) == Step(w, repays);
    assert AfterPayment(l, l.remaining as real) == Settled(l);
    assert a.loans[0 := Settled(l)] == [Settled(l)];
  }

  /** A repayment between the loop's reads and its statement: the loop cannot tell, and takes an installment for a debt
      that is gone. */
  lemma SettledLoanIsPaidAgain(a: Airline, financing: bool, p: nat)
    requires |a.loans| == 1 && Serves(ServiceFor(financing), a.loans[0]) && a.loans[0].weekly == p > 0
    requires 0 < a.loans[0].remaining && a.loans[0].remaining + p <= a.account.balance
    ensures var a' := Play(World(a, Idle), [Begin(financing)] + REPAID_MEANWHILE + [Next(true)]).airline;
            && a'.loans == [Settled(a.loans[0])]
            && a'.account.balance == a.account.balance - a.loans[0].remaining - p
  {
    var w := Play(World(a, Idle), [Begin(financing)] + REPAID_MEANWHILE);
    SettlesMeanwhile(a, financing, p);
    PlayInTurn(World(a, Idle), [Begin(financing)] + REPAID_MEANWHILE, [Next(true)]);
    assert [Next(true)][1..] == [];
    RoundWhole(p);
    RoundWhole(a.account.balance);
    RoundWhole(0);
    assert AfterPayment(Settled(a.loans[0]), p as real) == Settled(a.loans[0]);
    assert [Settled(a.loans[0])][0 := Settled(a.loans[0])] == [Settled(a.loans[0])];
  }

  /** With less than an installment left to repay, and in the account, the player can settle a loan that the loop is
      about to end: it is ended all the same, owes the fee, and its aircraft, the player's own by now, is grounded. */
  lemma SettledLoanIsEnded(a: Airline, financing: bool, p: nat)
    requires |a.loans| == 1 && Serves(ServiceFor(financing), a.loans[0]) && a.loans[0].weekly == p > 0
    requires 0 < a.loans[0].remaining <= a.account.balance < p && MissedAll(ServiceFor(financing), a, 0)
    ensures var l, s := a.loans[0], ServiceFor(financing);
            var a' := Play(World(a, Idle), [Begin(financing)] + REPAID_MEANWHILE + Statements(3)).airline;
            && a'.loans == [l.(remaining := Round(p as real * s.feePct), missed := l.missed + 1, status := s.outcome)]
            && |a'.fleet| == |a.fleet|
            && (financing && Secures(a, 0) ==>
                  a'.fleet[l.collateral.value].acquisition.Bought? && a'.fleet[l.collateral.value].status.Grounded?)
  {
    var l, s, cash := a.loans[0], ServiceFor(financing), a.account.balance;
    var w := Play(World(a, Idle), [Begin(financing)] + REPAID_MEANWHILE);
    SettlesMeanwhile(a, financing, p);
    PlayInTurn(World(a, Idle), [Begin(financing)] + REPAID_MEANWHILE, Statements(3));
    OneByOne(w);
    RoundWhole(p);
    RoundWhole(cash);
    EndsSettledLoan(s, w, l, cash, p);
  }

  lemma EndsSettledLoan(s: Service, w: World, l: Loan, cash: int, p: nat)
    requires w.airline.loans == [Settled(l)] && l.missed + 1 >= s.limit && !AtLeast(cash as real, p as real)
    requires w.loop == Serving(s, cash as real, [Entry(0, p as real, l.collateral)])
    ensures var a := NextStatement(NextStatement(NextStatement(w, true), true), true).airline;
            && a.loans == [l.(remaining := Round(p as real * s.feePct), missed := l.missed + 1, status := s.outcome)]
            && a.fleet == GroundCollateral(w.airline, l.collateral).fleet
  {
    var e, fined := Entry(0, p as real, l.collateral), Fined(s, Settled(l), p as real);
    assert [Settled(l)][0 := fined] == [fined] && [e][1..] == [];
    var w1 := World(w.airline.(loans := [fined]), Ending(s, cash as real, [], e));
    assert NextStatement(w, true) == w1;
    assert [fined][0 := fined.(status := s.outcome)] == [fined.(status := s.outcome)];
    var w2 := World(w.airline.(loans := [fined.(status := s.outcome)]), Seizing(s, cash as real, [], e));
    assert NextStatement(w1, true) == w2;
    assert 0 as real + Penalty(p as real, s.feePct) == p as real * s.feePct;
    assert fined.remaining == Round(p as real * s.feePct);
    assert fined.(status := s.outcome)
        == l.(remaining := Round(p as real * s.feePct), missed := l.missed + 1, status := s.outcome);
  }
}
