/**
 What a day boundary does, read off its own history: the count of negative days over any run of commands, when it ends
 in bankruptcy, what bankruptcy leaves, and what serving one loan does.
 */
module DayProofs {
  import opened Sequences
  import opened Money
  import opened Airline
  import opened Fleet
  import opened Bank
  import opened DayBoundary
  import opened AirlineRuns
  import opened LoanProofs

  // ----- negative days in a row

  // The balances at the day boundaries of a run, in order.
  function Balances(a: Airline, calls: seq<Call>): seq<int>
    decreases calls
  {
    if calls == [] then []
    else
      var before := calls[..|calls| - 1];
      Balances(a, before)
      + if calls[|calls| - 1].command.NegativeDay? then [Run(a, before).account.balance] else []
  }

  // n is how many negative balances the days end with; the days before the first of them count on if there is none
  // else.
  ghost predicate InARow(balances: seq<int>, before: nat, n: nat) {
    exists k: nat :: LastNegatives(balances, k) && n == k + if k == |balances| then before else 0
  }

  ghost predicate LastNegatives(balances: seq<int>, k: nat) {
    && k <= |balances| && (forall i :: |balances| - k <= i < |balances| ==> balances[i] < 0)
    && (k < |balances| ==> 0 <= balances[|balances| - k - 1])
  }

  lemma OneMoreDay(balances: seq<int>, before: nat, n: nat, balance: int)
    requires InARow(balances, before, n)
    ensures InARow(balances + [balance], before, if balance < 0 then n + 1 else 0)
  {
    var k: nat :| LastNegatives(balances, k) && n == k + if k == |balances| then before else 0;
    assert LastNegatives(balances + [balance], if balance < 0 then k + 1 else 0);
  }

  lemma {:induction false} ServingLeavesDays(s: Service, a: Airline, cash: real, id: nat)
    ensures ServeFrom(s, a, cash, id).negativeDays == a.negativeDays
    ensures ServeFrom(s, a, cash, id).bankrupt == a.bankrupt
    decreases |a.loans| - id
  {
    if id < |a.loans| {
      var (a', cash') := ServeOne(s, a, cash, id);
      ServingLeavesDays(s, a', cash', id + 1);
    }
  }

  lemma CommandsLeaveDays(a: Airline, c: Command, f: Faults)
    requires !c.NegativeDay?
    ensures Exec(a, c, f).0.negativeDays == a.negativeDays && Exec(a, c, f).0.bankrupt == (a.bankrupt || c.Bankruptcy?)
  {
    match c
    case ServeLoans => ServingLeavesDays(LOAN_SERVICE, a, a.account.balance as real, 0);
    case ServeFinancing => ServingLeavesDays(FINANCING_SERVICE, a, a.account.balance as real, 0);
    case Simulate(postings) => PostLeavesRest(a, postings, f);
    case Finance(r, p) =>
      if FinanceAllowed(r, p) {
        FinancingLeavesDays(a, r.model, DownPayment(r), TermOf(r), p.rateSecured, f);
      }
    case Borrow(_, _, _, _, _) =>
    case RepayLoan(_, _) =>
    case RefinanceLoan(_, _) =>
    case Bankruptcy =>
    case _ => FleetCommandsLeaveDays(a, c, f);
  }

  lemma FleetCommandsLeaveDays(a: Airline, c: Command, f: Faults)
    requires c.BuyAircraft? || c.LeaseAircraft? || c.SellAircraft? || c.EndLease? || c.RepairAircraft?
    ensures Exec(a, c, f).0.negativeDays == a.negativeDays && Exec(a, c, f).0.bankrupt == a.bankrupt
  {
  }

  lemma FinancingLeavesDays(a: Airline, m: Model, down: int, term: int, rate: Rate, f: Faults)
    requires term > 0
    ensures var a' := FinanceWith(a, m, down, term, rate, f).0;
            a'.negativeDays == a.negativeDays && a'.bankrupt == a.bankrupt
  {
  }

  /** Over any run of commands, failures included, the count is the number of day boundaries in a row, up to the last
      one, that found the balance negative, counting on from the start if none found it otherwise. */
  lemma {:induction false} NegativeDaysAreCounted(a: Airline, calls: seq<Call>)
    ensures InARow(Balances(a, calls), a.negativeDays, Run(a, calls).negativeDays)
    decreases calls
  {
    if calls == [] {
      assert LastNegatives(Balances(a, calls), 0);
    } else {
      var before, last := calls[..|calls| - 1], calls[|calls| - 1];
      NegativeDaysAreCounted(a, before);
      if last.command.NegativeDay? {
        OneMoreDay(Balances(a, before), a.negativeDays, Run(a, before).negativeDays, Run(a, before).account.balance);
      } else {
        CommandsLeaveDays(Run(a, before), last.command, last.faults);
        assert Balances(a, calls) == Balances(a, before);
      }
    }
  }

  // The call bankrupts the airline: by itself, or as the day that makes it `threshold` negative ones in a row.
  ghost predicate Ruins(a: Airline, calls: seq<Call>, i: nat) {
    i < |calls|
    && (calls[i].command.Bankruptcy?
        || (calls[i].command.NegativeDay? && 0 < calls[i].command.threshold
            && DaysReach(Balances(a, calls[..i + 1]), a.negativeDays, calls[i].command.threshold)))
  }

  ghost predicate DaysReach(balances: seq<int>, before: nat, threshold: int) {
    exists n: nat :: InARow(balances, before, n) && threshold <= n
  }

  lemma NoLonger(balances: seq<int>, k: nat, l: nat)
    requires LastNegatives(balances, k) && LastNegatives(balances, l)
    ensures l <= k
  {
    if k < |balances| {
      var i := |balances| - k - 1;
      assert 0 <= balances[i];
      assert i < |balances| - l;
    }
  }

  lemma RowIsUnique(balances: seq<int>, before: nat, m: nat, n: nat)
    requires InARow(balances, before, m) && InARow(balances, before, n)
    ensures m == n
  {
    var k: nat :| LastNegatives(balances, k) && m == k + if k == |balances| then before else 0;
    var l: nat :| LastNegatives(balances, l) && n == l + if l == |balances| then before else 0;
    NoLonger(balances, k, l);
    NoLonger(balances, l, k);
  }

  lemma DayRuinsIff(a: Airline, calls: seq<Call>)
    requires calls != [] && calls[|calls| - 1].command.NegativeDay?
    ensures Run(a, calls).bankrupt <==> Run(a, calls[..|calls| - 1]).bankrupt || Ruins(a, calls, |calls| - 1)
  {
    var before, last := calls[..|calls| - 1], calls[|calls| - 1];
    assert calls[..|calls| - 1 + 1] == calls;
    NegativeDaysAreCounted(a, calls);
    var n := Run(a, calls).negativeDays;
    forall m: nat | InARow(Balances(a, calls), a.negativeDays, m)
      ensures m == n
    {
      RowIsUnique(Balances(a, calls), a.negativeDays, m, n);
    }
  }

  lemma RuinsEarlier(a: Airline, calls: seq<Call>, n: nat, i: nat)
    requires i < n <= |calls|
    ensures Ruins(a, calls[..n], i) <==> Ruins(a, calls, i)
  {
    assert calls[..n][..i + 1] == calls[..i + 1];
  }

  /** And the airline is bankrupt after a run exactly if it was before, a bankruptcy was called, or some day boundary
      made it as many negative days in a row as its threshold, which must be positive. */
  lemma {:induction false} BankruptIff(a: Airline, calls: seq<Call>)
    ensures Run(a, calls).bankrupt <==> a.bankrupt || exists i: nat :: Ruins(a, calls, i)
    decreases calls
  {
    if calls != [] {
      var n := |calls| - 1;
      BankruptIff(a, calls[..n]);
      forall i: nat | i < n
        ensures Ruins(a, calls[..n], i) <==> Ruins(a, calls, i)
      {
        RuinsEarlier(a, calls, n, i);
      }
      if calls[n].command.NegativeDay? {
        DayRuinsIff(a, calls);
      } else {
        CommandsLeaveDays(Run(a, calls[..n]), calls[n].command, calls[n].faults);
        assert Ruins(a, calls, n) <==> calls[n].command.Bankruptcy?;
      }
    }
  }

  // ----- what bankruptcy leaves

  /** Bankruptcy grounds the whole fleet and ends every active loan with nothing owing; it moves no cash, and changes no
      other loan and nothing else about an aircraft. */
  lemma BankruptcyGroundsAndDefaults(a: Airline)
    ensures var a' := Exec(a, Bankruptcy, NO_FAULTS).0;
            && a' == Airline(a.account, a'.loans, a'.fleet, a.onRoute, a.gameTime, a.negativeDays, true)
            && |a'.fleet| == |a.fleet| && |a'.loans| == |a.loans|
            && (forall i :: 0 <= i < |a.fleet| ==>
                  var before, after := a.fleet[i], a'.fleet[i];
                  after == Aircraft(before.model, before.acquisition, before.condition, Grounded, before.acquired,
                                    before.present))
            && (forall i :: 0 <= i < |a.loans| ==>
                  var before, after := a.loans[i], a'.loans[i];
                  if before.status.Active?
                  then after.status.Defaulted? && after.remaining == 0 && after.missed == before.missed
                       && after.weekly == before.weekly && after.collateral == before.collateral
                  else after == before)
  {
  }

  // ----- serving one loan

  // The installment: the weekly one, or a 4.33rd of the monthly one.
  predicate Due(due: real, l: Loan) {
    if l.weekly > 0 then due == l.weekly as real
    else if l.monthly.Some? && l.monthly.value > 0 then due * 4.33 == l.monthly.value as real
    else due == 0.0
  }

  // What a paid installment leaves of the debt.
  predicate Lowered(left: int, remaining: int, due: real) {
    if due >= remaining as real then left == 0 else left == Round(remaining as real - due)
  }

  // The installment is debited, and comes off the debt.
  predicate Paid(due: real, a: Airline, a': Airline, id: nat, subcategory: string)
    requires id < |a.loans| && id < |a'.loans|
  {
    var l, l', cents := a.loans[id], a'.loans[id], Round(due);
    && a'.account.balance == a.account.balance - cents && a'.fleet == a.fleet
    && a'.account.ledger
       == a.account.ledger
          + (if cents == 0 then [] else [Row(Debit, "financing", subcategory, -cents, a'.account.balance)])
    && Lowered(l'.remaining, l.remaining, due) && l'.missed == l.missed
    && l'.status == if l.remaining as real - due <= 0.5 then PaidOff else Active
  }

  predicate WithFee(owing: int, remaining: int, due: real, pct: real) {
    owing == Round(remaining as real + due * pct)
  }

  lemma MissAddsFee(s: Service, l: Loan, due: real)
    requires due == Installment(l)
    ensures WithFee(AfterMiss(s, l).remaining, l.remaining, due, s.feePct)
  {
    FeeIsAdded(AfterMiss(s, l).remaining, l.remaining, due, s.feePct);
  }

  lemma FeeIsAdded(owing: int, remaining: int, due: real, pct: real)
    requires owing == Round(remaining as real + Penalty(due, pct))
    ensures WithFee(owing, remaining, due, pct)
  {
  }

  // A fee is added and the miss counted; the last one ends the loan and grounds its aircraft.
  predicate Missed(due: real, a: Airline, a': Airline, id: nat, pct: real, last: nat, ended: LoanStatus)
    requires id < |a.loans| && id < |a'.loans|
  {
    var l, l' := a.loans[id], a'.loans[id];
    && a'.account == a.account && l'.missed == l.missed + 1
    && WithFee(l'.remaining, l.remaining, due, pct)
    && l'.status == (if l.missed + 1 >= last then ended else Active)
    && |a'.fleet| == |a.fleet|
    && forall i :: 0 <= i < |a.fleet| ==>
         a'.fleet[i] == if l.missed + 1 >= last && l.collateral == Some(i) && a.fleet[i].present
                        then a.fleet[i].(status := Grounded) else a.fleet[i]
  }

  predicate Served(due: real, cash: real, a: Airline, a': Airline, id: nat, pct: real, last: nat, ended: LoanStatus,
                   subcategory: string)
    requires id < |a.loans| && id < |a'.loans|
  {
    if due <= 0.0 || (Round(cash) >= Round(due) && a.account.balance < Round(due) && Round(due) > 0) then a' == a
    else if Round(cash) >= Round(due) then Paid(due, a, a', id, subcategory)
    else Missed(due, a, a', id, pct, last, ended)
  }

  lemma DueIs(l: Loan)
    ensures Due(Installment(l), l)
  {
    if l.weekly <= 0 && l.monthly.Some? {
      var m := l.monthly.value as real;
      assert m / 4.33 * 4.33 == m;
    }
  }

  lemma PaymentLowers(l: Loan, due: real)
    requires due > 0.0
    ensures Lowered(AfterPayment(l, due).remaining, l.remaining, due)
  {
    RoundWhole(0);
  }

  lemma PaysRightly(s: Service, a: Airline, cash: real, id: nat)
    requires id < |a.loans| && Serves(s, a.loans[id]) && Installment(a.loans[id]) > 0.0
    requires Round(cash) >= Round(Installment(a.loans[id]))
    ensures var due, a' := Installment(a.loans[id]), ServeOne(s, a, cash, id).0;
            if a.account.balance < Round(due) && Round(due) > 0 then a' == a else Paid(due, a, a', id, s.subcategory)
  {
    PaymentLowers(a.loans[id], Installment(a.loans[id]));
    RoundWhole(0);
    RoundKeepsOrder(0.0, Installment(a.loans[id]));
  }

  lemma MissesRightly(s: Service, a: Airline, cash: real, id: nat)
    requires id < |a.loans| && Serves(s, a.loans[id]) && Installment(a.loans[id]) > 0.0
    requires Round(cash) < Round(Installment(a.loans[id]))
    ensures Missed(Installment(a.loans[id]), a, ServeOne(s, a, cash, id).0, id, s.feePct, s.limit, s.outcome)
  {
    MissAddsFee(s, a.loans[id], Installment(a.loans[id]));
    assert ServeOne(s, a, cash, id).0.loans[id] == AfterMiss(s, a.loans[id]);
  }

  lemma ServedRightly(s: Service, a: Airline, cash: real, id: nat)
    requires id < |a.loans| && Serves(s, a.loans[id])
    ensures Served(Installment(a.loans[id]), cash, a, ServeOne(s, a, cash, id).0, id, s.feePct, s.limit, s.outcome,
                   s.subcategory)
  {
    if Installment(a.loans[id]) > 0.0 {
      if Round(cash) >= Round(Installment(a.loans[id])) {
        PaysRightly(s, a, cash, id);
      } else {
        MissesRightly(s, a, cash, id);
      }
    }
  }

  /** Serving a loan pays its installment when the loop's cash and the account can bear it; when the loop's cash cannot,
      it adds a tenth of the installment to the debt (a twentieth for a financing) and counts a miss, and the fourth
      miss (the third) ends the loan and grounds its aircraft. Other loans are not touched. */
  lemma ServingOneLoan(a: Airline, cash: real, id: nat)
    requires id < |a.loans| && a.loans[id].status.Active?
    ensures var l := a.loans[id];
            var financing := l.loanType.AircraftFinancing?;
            var a' := ServeOne(if financing then FINANCING_SERVICE else LOAN_SERVICE, a, cash, id).0;
            && (forall i :: 0 <= i < |a.loans| && i != id ==> a'.loans[i] == a.loans[i])
            && exists due :: Due(due, l)
                 && if financing then Served(due, cash, a, a', id, 0.05, 3, Repossessed, "financing_payment")
                    else Served(due, cash, a, a', id, 0.10, 4, Defaulted, "loan_payment")
    ensures a.loans[id].loanType.AircraftFinancing? ==> ServeOne(LOAN_SERVICE, a, cash, id).0 == a
    ensures !a.loans[id].loanType.AircraftFinancing? ==> ServeOne(FINANCING_SERVICE, a, cash, id).0 == a
  {
    DueIs(a.loans[id]);
    if a.loans[id].loanType.AircraftFinancing? {
      ServedRightly(FINANCING_SERVICE, a, cash, id);
    } else {
      ServedRightly(LOAN_SERVICE, a, cash, id);
    }
  }
}
