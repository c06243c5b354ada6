/**
 The engine as it runs: committed rows, the private copy of the open transaction, and commands that change
 them statement by statement. Each command is proved to do what its function in Fleet, Bank, DayBoundary or
 AirlineRuns says, so what is proved about runs of those functions holds of runs of this class.
 */
module Engine {
  import opened Sequences
  import opened Money
  import opened Airline
  import opened Fleet
  import opened Bank
  import opened DayBoundary
  import opened AirlineRuns
  import opened Windows
  import E = Economics
  import A = Airline
  import F = Fleet
  import B = Bank
  import D = DayBoundary
  import R = AirlineRuns

  class Engine {
    var committed: Airline
    // What the open transaction sees; meaningless outside one.
    var work: Airline

    constructor (start: Airline)
      ensures committed == start
    {
      committed, work := start, start;
    }

    // ----- transactions

    method Begin(f: Faults) returns (begun: bool)
      modifies this`work
      ensures begun == !f.begin
      ensures begun ==> work == committed
    {
      begun := !f.begin;
      if begun {
        work := committed;
      }
    }

    // A body that asked to be undone, or a commit that fails, leaves the committed rows alone.
    method End(verdict: Verdict, f: Faults, failure: Outcome) returns (outcome: Outcome)
      requires !f.begin
      modifies this
      ensures (committed, outcome) == WithTx(old(committed), Body(old(work), verdict), f, failure)
    {
      match verdict
      case Rollback(o) =>
        outcome := o;
      case Commit =>
        if f.commit {
          outcome := failure;
        } else {
          committed := work;
          outcome := Accepted;
        }
      work := committed;
    }

    // ----- the ledger

    // Two statements, the balance and then the row: one that fails may leave the copy between the two.
    method ApplyTx(amount: real, kind: Kind, allowNegative: bool, category: string, subcategory: string, fails: bool)
      returns (ok: bool)
      modifies this`work
      ensures ok == A.ApplyTx(old(work), amount, kind, allowNegative, category, subcategory, fails).Some?
      ensures ok ==> Some(work) == A.ApplyTx(old(work), amount, kind, allowNegative, category, subcategory, fails)
    {
      var cents := Round(amount);
      if cents < 0 {
        return false;
      }
      if cents == 0 {
        return !fails;
      }
      var signed := cents;
      if kind == Debit {
        if !allowNegative && work.account.balance < cents {
          return false;
        }
        signed := -cents;
      }
      var balance := work.account.balance + signed;
      work := work.(account := work.account.(balance := balance));
      if fails {
        return false;
      }
      var row := Row(kind, category, subcategory, signed, balance);
      work := work.(account := work.account.(ledger := work.account.ledger + [row]));
      return true;
    }

    // ----- fleet

    method Purchase(o: Order, f: Faults) returns (outcome: Outcome)
      modifies this
      ensures (committed, outcome) == F.Purchase(old(committed), o, f)
    {
      var price := o.model.price as real;
      if !OrderAllowed(o) || LessThan(committed.account.balance as real, price) {
        return Refused;
      }
      var begun := Begin(f);
      if !begun {
        return Refused;
      }
      var paid := ApplyTx(price, Debit, false, "investing", "aircraft_purchase", f.ledger);
      if !paid || f.write {
        outcome := End(Rollback(Refused), f, Refused);
        return;
      }
      work := work.(fleet := work.fleet + [Delivered(o.model, Bought)]);
      outcome := End(Commit, f, Refused);
    }

    method Lease(o: Order, basePct: real, f: Faults) returns (outcome: Outcome)
      modifies this
      ensures (committed, outcome) == F.Lease(old(committed), o, basePct, f)
    {
      var deposit := LeaseDeposit(o.model.price, o.model.leasePrice, basePct);
      if !OrderAllowed(o) || LessThan(committed.account.balance as real, deposit) {
        return Refused;
      }
      var begun := Begin(f);
      if !begun {
        return Refused;
      }
      var paid := ApplyTx(deposit, Debit, false, "investing", "aircraft_lease_deposit", f.ledger);
      if !paid || f.write {
        outcome := End(Rollback(Refused), f, Refused);
        return;
      }
      work := work.(fleet := work.fleet + [Delivered(o.model, A.Leased)]);
      outcome := End(Commit, f, Refused);
    }

    method Sell(id: nat, f: Faults) returns (outcome: Outcome)
      modifies this
      ensures (committed, outcome) == F.Sell(old(committed), id, f)
    {
      if !Owns(committed, id) || !committed.fleet[id].acquisition.Bought? || id in committed.onRoute {
        return Refused;
      }
      var craft := committed.fleet[id];
      var value := SaleValue(craft.condition, craft.model.price, craft.acquired, committed.gameTime);
      var begun := Begin(f);
      if !begun {
        return Refused;
      }
      var paid := ApplyTx(value, Credit, false, "investing", "aircraft_sale", f.ledger);
      if !paid || f.write {
        outcome := End(Rollback(Refused), f, Refused);
        return;
      }
      work := work.(fleet := work.fleet[id := craft.(present := false)]);
      outcome := End(Commit, f, Refused);
    }

    method TerminateLease(id: nat, f: Faults) returns (outcome: Outcome)
      modifies this
      ensures (committed, outcome) == F.TerminateLease(old(committed), id, f)
    {
      if !Owns(committed, id) || !committed.fleet[id].acquisition.Leased? || id in committed.onRoute {
        return Refused;
      }
      var craft := committed.fleet[id];
      var fee := LeaseExitFee(craft.model.leasePrice);
      if LessThan(committed.account.balance as real, fee) {
        return Refused;
      }
      var begun := Begin(f);
      if !begun {
        return Refused;
      }
      var paid := ApplyTx(fee, Debit, false, "opex", "lease_termination", f.ledger);
      if !paid || f.write {
        outcome := End(Rollback(Refused), f, Refused);
        return;
      }
      work := work.(fleet := work.fleet[id := craft.(present := false)]);
      outcome := End(Commit, f, Refused);
    }

    method Repair(id: nat, f: Faults) returns (outcome: Outcome)
      modifies this
      ensures (committed, outcome) == F.Repair(old(committed), id, f)
    {
      var begun := Begin(f);
      if !begun {
        return Refused;
      }
      if !Owns(work, id) {
        outcome := End(Rollback(Refused), f, Refused);
        return;
      }
      var craft := work.fleet[id];
      if craft.condition >= 100.0 {
        outcome := End(Rollback(Accepted), f, Refused);
        return;
      }
      var cost := RepairCost(craft.condition, craft.model.price);
      if LessThan(work.account.balance as real, cost) {
        outcome := End(Rollback(Refused), f, Refused);
        return;
      }
      var paid := ApplyTx(cost, Debit, false, "cogs", "maintenance", f.ledger);
      if !paid || f.write {
        outcome := End(Rollback(Refused), f, Refused);
        return;
      }
      work := work.(fleet := work.fleet[id := craft.(condition := 100.0, status := InService)]);
      outcome := End(Commit, f, Refused);
    }

    // ----- bank

    method TakeLoan(principal: real, termWeeks: int, loanType: LoanType, collateral: bool, p: Policy, f: Faults)
      returns (outcome: Outcome)
      modifies this
      ensures (committed, outcome) == B.TakeLoan(old(committed), principal, termWeeks, loanType, collateral, p, f)
    {
      if principal <= 0.0 || collateral {
        return Refused;
      }
      var term := termWeeks;
      if term <= 0 {
        term := 52;
      }
      var begun := Begin(f);
      if !begun {
        return Broken;
      }
      if ActiveLoans(work) >= p.maxActive || loanType.AircraftFinancing? || loanType.Secured?
         || principal < p.minLoan || principal > BorrowingLimit(loanType, p) {
        outcome := End(Rollback(Refused), f, Broken);
        return;
      }
      var loan := NewLoan(principal, term, loanType, BorrowingRate(loanType, p));
      if f.write || loan.principal <= 0 {
        outcome := End(Rollback(Broken), f, Broken);
        return;
      }
      work := work.(loans := work.loans + [loan]);
      var paid := ApplyTx(principal, Credit, false, "financing", "loan_disbursement", f.ledger);
      if !paid {
        outcome := End(Rollback(Broken), f, Broken);
        return;
      }
      outcome := End(Commit, f, Broken);
    }

    method Repay(id: nat, amount: Option<real>, f: Faults) returns (outcome: Outcome)
      modifies this
      ensures (committed, outcome) == B.Repay(old(committed), id, amount, f)
    {
      var begun := Begin(f);
      if !begun {
        return Broken;
      }
      if id >= |work.loans| || !work.loans[id].status.Active? {
        outcome := End(Rollback(Refused), f, Broken);
        return;
      }
      var payment := Owed(work.loans[id], amount);
      if payment <= 0.0 || LessThan(work.account.balance as real, payment) {
        outcome := End(Rollback(Refused), f, Broken);
        return;
      }
      var paid := ApplyTx(payment, Debit, false, "financing", "loan_repayment", f.ledger);
      if !paid || f.write {
        outcome := End(Rollback(Broken), f, Broken);
        return;
      }
      var loan := AfterPayment(work.loans[id], payment);
      work := work.(loans := work.loans[id := loan]);
      if loan.status.PaidOff? && loan.loanType.AircraftFinancing? && loan.collateral.Some?
         && Owns(work, loan.collateral.value) && work.fleet[loan.collateral.value].acquisition.Financed? {
        var craft := work.fleet[loan.collateral.value];
        work := work.(fleet := work.fleet[loan.collateral.value := craft.(acquisition := Bought)]);
      }
      outcome := End(Commit, f, Broken);
    }

    method Refinance(id: nat, p: Policy, f: Faults) returns (outcome: Outcome)
      modifies this
      ensures (committed, outcome) == B.Refinance(old(committed), id, p, f)
    {
      var begun := Begin(f);
      if !begun {
        return Broken;
      }
      if id >= |work.loans| || !work.loans[id].status.Active? {
        outcome := End(Rollback(Refused), f, Broken);
        return;
      }
      var l := work.loans[id];
      if l.monthly.None? {
        outcome := End(Rollback(Broken), f, Broken);
        return;
      }
      var newRate := OfferedRate(l, p);
      if newRate >= l.rate {
        outcome := End(Rollback(Refused), f, Broken);
        return;
      }
      if f.write {
        outcome := End(Rollback(Broken), f, Broken);
        return;
      }
      work := work.(loans := work.loans[id := Refinanced(l, newRate)]);
      outcome := End(Commit, f, Broken);
    }

    method FinanceAircraft(r: FinanceRequest, p: Policy, f: Faults) returns (outcome: Outcome)
      modifies this
      ensures (committed, outcome) == B.FinanceAircraft(old(committed), r, p, f)
    {
      if !FinanceAllowed(r, p) {
        return Refused;
      }
      outcome := PayDownAndBorrow(r.model, DownPayment(r), TermOf(r), p.rateSecured, f);
    }

    method PayDownAndBorrow(m: Model, down: int, term: int, rate: Rate, f: Faults) returns (outcome: Outcome)
      requires term > 0
      modifies this
      ensures (committed, outcome) == FinanceWith(old(committed), m, down, term, rate, f)
    {
      if LessThan(committed.account.balance as real, down as real) {
        return Refused;
      }
      var begun := Begin(f);
      if !begun {
        return Broken;
      }
      var paid := ApplyTx(down as real, Debit, false, "investing", "aircraft_purchase_deposit", f.ledger);
      if !paid {
        outcome := End(Rollback(Broken), f, Broken);
        return;
      }
      var aircraft := |work.fleet|;
      work := work.(fleet := work.fleet + [Delivered(m, Financed)]);
      if f.write || m.price - down <= 0 {
        outcome := End(Rollback(Broken), f, Broken);
        return;
      }
      work := work.(loans := work.loans + [FinancingLoan(m.price - down, rate, term, aircraft)]);
      outcome := End(Commit, f, Broken);
    }

    // ----- day boundary

    // One installment in a transaction of its own: the debit and the loan's update together or not at all.
    method PayInstallment(s: Service, id: nat, payment: real) returns (kept: bool)
      requires id < |committed.loans|
      modifies this
      ensures kept == DebitTx(old(committed), payment, "financing", s.subcategory, false).Some?
      ensures committed == if kept
                           then SetLoan(DebitTx(old(committed), payment, "financing", s.subcategory, false).value, id,
                                        AfterPayment(old(committed).loans[id], payment))
                           else old(committed)
    {
      var begun := Begin(NO_FAULTS);
      kept := ApplyTx(payment, Debit, false, "financing", s.subcategory, false);
      if kept {
        work := work.(loans := work.loans[id := AfterPayment(work.loans[id], payment)]);
      }
      var ignored := End(if kept then Commit else Rollback(Refused), NO_FAULTS, Broken);
    }

    method MissInstallment(s: Service, id: nat)
      requires id < |committed.loans|
      modifies this
      ensures committed == Miss(s, old(committed), id)
    {
      var l := committed.loans[id];
      var charged := l.(remaining := Round(l.remaining as real + Installment(l) * s.feePct), missed := l.missed + 1);
      committed := committed.(loans := committed.loans[id := charged]);
      if charged.missed >= s.limit {
        var ended := charged.(status := s.outcome);
        assert ended == AfterMiss(s, l);
        assert committed.loans[id := ended] == old(committed).loans[id := ended];
        committed := committed.(loans := committed.loans[id := ended]);
        if l.collateral.Some? && Owns(committed, l.collateral.value) {
          var craft := committed.fleet[l.collateral.value];
          committed := committed.(fleet := committed.fleet[l.collateral.value := craft.(status := Grounded)]);
        }
      } else {
        assert charged == AfterMiss(s, l);
      }
    }

    // The cash is read once; afterwards the loop keeps its own count of what is left.
    method ServeLoans(s: Service)
      modifies this
      ensures committed == Serve(s, old(committed))
    {
      var cash := committed.account.balance as real;
      var id := 0;
      while id < |committed.loans|
        invariant ServeFrom(s, committed, cash, id) == Serve(s, old(committed))
        decreases |committed.loans| - id
      {
        var l := committed.loans[id];
        var payment := Installment(l);
        if Serves(s, l) && payment > 0.0 {
          if AtLeast(cash, payment) {
            var kept := PayInstallment(s, id, payment);
            if kept {
              cash := cash - payment;
            }
          } else {
            MissInstallment(s, id);
          }
        }
        id := id + 1;
      }
    }

    method CountNegativeDay(threshold: int)
      modifies this
      ensures committed == D.CountNegativeDay(old(committed), threshold)
    {
      if committed.account.balance >= 0 {
        committed := committed.(negativeDays := 0);
        return;
      }
      committed := committed.(negativeDays := committed.negativeDays + 1);
      if threshold > 0 && committed.negativeDays >= threshold {
        committed := GoBankrupt(committed);
      }
    }

    method DayBoundary(threshold: int)
      modifies this
      ensures committed == D.DayBoundary(old(committed), threshold)
    {
      ServeLoans(LOAN_SERVICE);
      ServeLoans(FINANCING_SERVICE);
      CountNegativeDay(threshold);
    }

    // ----- simulation

    // Posts the positive amounts of a list in the open transaction, and stops at the first failure.
    method PostEach(postings: seq<Posting>, f: Faults) returns (ok: bool)
      modifies this`work
      ensures ok == Post(old(work), postings, f).Some?
      ensures ok ==> Post(old(work), postings, f) == Some(work)
    {
      var i := 0;
      while i < |postings|
        invariant 0 <= i <= |postings|
        invariant Post(old(work), postings[..i], f) == Some(work)
      {
        var p := postings[i];
        assert postings[..i + 1][..i] == postings[..i];
        if p.amount > 0.0 {
          var kind := KindOf(p.item);
          ok := ApplyTx(p.amount, kind, kind == Debit, CategoryOf(p.item), SubcategoryOf(p.item), f.ledger);
          if !ok {
            assert postings == postings[..i + 1] + postings[i + 1..];
            PostAppends(old(work), postings[..i + 1], postings[i + 1..], f);
            return;
          }
        }
        i := i + 1;
      }
      assert postings[..i] == postings;
      ok := true;
    }

    method Simulate(postings: seq<Posting>, f: Faults) returns (outcome: Outcome)
      modifies this
      ensures (committed, outcome) == WithTx(old(committed), SimulateBody(old(committed), postings, f), f, Broken)
    {
      var begun := Begin(f);
      if !begun {
        return Broken;
      }
      var ok := PostEach(postings, f);
      outcome := End(if ok then Commit else Rollback(Broken), f, Broken);
    }

    method BillRoute(s: Schedule, elapsed: real, f: Faults) returns (ok: bool, revenue: real, expense: real)
      modifies this`work
      ensures ok == Post(old(work), RowsOf(s, elapsed), f).Some?
      ensures ok ==> Post(old(work), RowsOf(s, elapsed), f) == Some(work)
      ensures ok ==> revenue - expense == Exact(RowsOf(s, elapsed))
    {
      revenue, expense := 0.0, 0.0;
      var w := E.Tick(s.r, s.p, s.c, s.e, elapsed);
      if w.None? {
        return true, revenue, expense;
      }
      ok := PostEach(PostingsOf(w.value), f);
      ExactOfWindow(w.value);
      revenue := Positive(w.value.revenue) + Positive(w.value.cargo);
      expense := Positive(w.value.fuel) + Positive(w.value.crew) + Positive(w.value.maintenance)
          + Positive(w.value.lease);
    }

    // The route loop: every flying route is billed in the one open transaction.
    method BillRoutes(schedules: seq<Schedule>, elapsed: real, f: Faults)
      returns (ok: bool, revenue: real, expense: real)
      modifies this`work
      ensures ok == Post(old(work), RoutePostings(schedules, elapsed), f).Some?
      ensures ok ==> Post(old(work), RoutePostings(schedules, elapsed), f) == Some(work)
      ensures ok ==> revenue - expense == Exact(RoutePostings(schedules, elapsed))
    {
      revenue, expense := 0.0, 0.0;
      var i := 0;
      while i < |schedules|
        invariant 0 <= i <= |schedules|
        invariant Post(old(work), RoutePostings(schedules[..i], elapsed), f) == Some(work)
        invariant revenue - expense == Exact(RoutePostings(schedules[..i], elapsed))
      {
        RouteAppends(old(work), schedules, i, elapsed, f);
        var earned, spent;
        ok, earned, spent := BillRoute(schedules[i], elapsed, f);
        if !ok {
          RoutesStopAtFailure(old(work), schedules, i + 1, elapsed, f);
          return;
        }
        revenue, expense := revenue + earned, expense + spent;
        i := i + 1;
      }
      assert schedules[..i] == schedules;
      ok := true;
    }

    // One window of the player's flying routes: the ledger rows, and the totals the player is told.
    method ProcessWindow(schedules: seq<Schedule>, elapsed: real, idleLease: real, f: Faults)
      returns (outcome: Outcome, revenue: real, expense: real)
      modifies this
      ensures (committed, outcome)
              == WithTx(old(committed),
                        SimulateBody(old(committed), WindowPostings(schedules, elapsed, idleLease), f), f, Broken)
      ensures outcome == Accepted ==> revenue - expense == Exact(WindowPostings(schedules, elapsed, idleLease))
    {
      revenue, expense := 0.0, 0.0;
      var begun := Begin(f);
      if !begun {
        return Broken, revenue, expense;
      }
      var idle := [Posting(IdleLease, idleLease)];
      PostAppends(committed, RoutePostings(schedules, elapsed), idle, f);
      ExactAppends(RoutePostings(schedules, elapsed), idle);
      assert idle[..0] == [];
      var ok;
      ok, revenue, expense := BillRoutes(schedules, elapsed, f);
      if !ok {
        outcome := End(Rollback(Broken), f, Broken);
        return;
      }
      ok := PostEach(idle, f);
      expense := expense + Positive(idleLease);
      outcome := End(if ok then Commit else Rollback(Broken), f, Broken);
    }

    /** Every command does to the committed rows what its function says, so every run of them does too. */
    method Do(c: Command, f: Faults) returns (outcome: Outcome)
      modifies this
      ensures (committed, outcome) == Exec(old(committed), c, f)
    {
      match c
      case BuyAircraft(order) => outcome := Purchase(order, f);
      case LeaseAircraft(order, basePct) => outcome := Lease(order, basePct, f);
      case SellAircraft(id) => outcome := Sell(id, f);
      case EndLease(id) => outcome := TerminateLease(id, f);
      case RepairAircraft(id) => outcome := Repair(id, f);
      case Borrow(principal, termWeeks, loanType, collateral, p) =>
        outcome := TakeLoan(principal, termWeeks, loanType, collateral, p, f);
      case RepayLoan(id, amount) => outcome := Repay(id, amount, f);
      case RefinanceLoan(id, p) => outcome := Refinance(id, p, f);
      case Finance(request, p) => outcome := FinanceAircraft(request, p, f);
      case ServeLoans =>
        ServeLoans(LOAN_SERVICE);
        outcome := Accepted;
      case ServeFinancing =>
        ServeLoans(FINANCING_SERVICE);
        outcome := Accepted;
      case NegativeDay(threshold) =>
        CountNegativeDay(threshold);
        outcome := Accepted;
      case Bankruptcy =>
        committed := GoBankrupt(committed);
        outcome := Accepted;
      case Simulate(postings) => outcome := Simulate(postings, f);
    }

    method DoAll(calls: seq<Call>)
      modifies this
      ensures committed == Run(old(committed), calls)
    {
      var i := 0;
      while i < |calls|
        invariant 0 <= i <= |calls|
        invariant committed == Run(old(committed), calls[..i])
      {
        assert calls[..i + 1][..i] == calls[..i];
        var outcome := Do(calls[i].command, calls[i].faults);
        i := i + 1;
      }
      assert calls[..i] == calls;
    }
  }

  lemma {:induction false} PostAppends(a: Airline, postings: seq<Posting>, more: seq<Posting>, f: Faults)
    ensures Post(a, postings + more, f)
            == var before := Post(a, postings, f); if before.None? then None else Post(before.value, more, f)
    decreases more
  {
    if more == [] {
      assert postings + more == postings;
    } else {
      var shorter := more[..|more| - 1];
      PostAppends(a, postings, shorter, f);
      assert (postings + more)[..|postings + more| - 1] == postings + shorter;
    }
  }

  lemma {:induction false} RoutePostingsGrow(schedules: seq<Schedule>, i: nat, elapsed: real)
    requires i <= |schedules|
    ensures RoutePostings(schedules[..i], elapsed) <= RoutePostings(schedules, elapsed)
    decreases |schedules| - i
  {
    if i < |schedules| {
      assert schedules[..i + 1][..i] == schedules[..i];
      RoutePostingsGrow(schedules, i + 1, elapsed);
    } else {
      assert schedules[..i] == schedules;
    }
  }

  lemma RouteAppends(a: Airline, schedules: seq<Schedule>, i: nat, elapsed: real, f: Faults)
    requires i < |schedules|
    ensures Post(a, RoutePostings(schedules[..i + 1], elapsed), f)
            == var before := Post(a, RoutePostings(schedules[..i], elapsed), f);
               if before.None? then None else Post(before.value, RowsOf(schedules[i], elapsed), f)
    ensures Exact(RoutePostings(schedules[..i + 1], elapsed))
            == Exact(RoutePostings(schedules[..i], elapsed)) + Exact(RowsOf(schedules[i], elapsed))
  {
    assert schedules[..i + 1][..i] == schedules[..i];
    PostAppends(a, RoutePostings(schedules[..i], elapsed), RowsOf(schedules[i], elapsed), f);
    ExactAppends(RoutePostings(schedules[..i], elapsed), RowsOf(schedules[i], elapsed));
  }

  lemma RoutesStopAtFailure(a: Airline, schedules: seq<Schedule>, i: nat, elapsed: real, f: Faults)
    requires i <= |schedules| && Post(a, RoutePostings(schedules[..i], elapsed), f).None?
    ensures Post(a, RoutePostings(schedules, elapsed), f).None?
  {
    RoutePostingsGrow(schedules, i, elapsed);
    var all, some := RoutePostings(schedules, elapsed), RoutePostings(schedules[..i], elapsed);
    assert all == some + all[|some|..];
    PostAppends(a, some, all[|some|..], f);
  }
}
