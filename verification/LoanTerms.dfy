/** Weekly and monthly installments over runs, and how long a loan lasts. */
module LoanTerms {
  import opened Sequences
  import opened Money
  import opened Airline
  import opened Fleet
  import opened Bank
  import opened DayBoundary
  import opened AirlineRuns
  import opened LoanProofs

  // ----- the two installments

  // The weekly installment is the monthly one over 4.33 weeks, each rounded from the same exact amount.
  ghost predicate Matched(l: Loan) {
    l.monthly.Some? ==> l.monthly.value as real - 0.5 <= (l.weekly as real + 0.5) * WEEKS_PER_MONTH
  }

  lemma FallbackIsWorthless(l: Loan)
    requires Matched(l) && l.weekly <= 0 && l.monthly.Some?
    ensures l.monthly.value <= 2
  {
  }

  lemma NewLoanIsMatched(principal: real, termWeeks: int, loanType: LoanType, rate: Rate)
    requires termWeeks > 0
    ensures Matched(NewLoan(principal, termWeeks, loanType, rate))
  {
    var weekly := principal * (1.0 + rate) / termWeeks as real;
    RoundIsNearest(weekly);
    RoundIsNearest(weekly * WEEKS_PER_MONTH);
  }

  lemma RoundedTogether(monthly: real)
    ensures Round(monthly) as real - 0.5 <= (Round(monthly / WEEKS_PER_MONTH) as real + 0.5) * WEEKS_PER_MONTH
  {
    RoundIsNearest(monthly);
    RoundIsNearest(monthly / WEEKS_PER_MONTH);
  }

  lemma FinancingLoanIsMatched(principal: int, rate: Rate, termMonths: int, aircraft: nat)
    requires termMonths > 0
    ensures Matched(FinancingLoan(principal, rate, termMonths, aircraft))
  {
    RoundedTogether(principal as real * (1.0 + rate) / termMonths as real);
  }

  lemma RefinancedIsMatched(l: Loan, newRate: Rate)
    requires l.monthly.Some?
    ensures Matched(Refinanced(l, newRate))
  {
    RoundedTogether(NewTotal(l.remaining, l.rate, newRate) / Periods(l.remaining, l.monthly.value, l.weekly));
  }

  ghost predicate AllMatched(loans: seq<Loan>) {
    forall i :: 0 <= i < |loans| ==> Matched(loans[i])
  }

  lemma ChangeKeepsMatched(c: Command, id: nat, l: Loan, l': Loan)
    requires Matched(l) && Becomes(c, id, l, l')
    ensures Matched(l')
  {
    if l' != l && c.RefinanceLoan? {
      RefinancedIsMatched(l, OfferedRate(l, c.policy));
    }
  }

  lemma BorrowAddsNewLoan(a: Airline, c: Command, f: Faults)
    requires c.Borrow?
    ensures var loans := Exec(a, c, f).0.loans;
            loans == a.loans
            || loans == a.loans + [NewLoan(c.principal, if c.termWeeks <= 0 then 52 else c.termWeeks, c.loanType,
                                           BorrowingRate(c.loanType, c.policy))]
  {
  }

  lemma NewLoansAreMatched(a: Airline, c: Command, f: Faults, i: nat)
    requires |a.loans| <= i < |Exec(a, c, f).0.loans|
    ensures Matched(Exec(a, c, f).0.loans[i])
  {
    if c.Borrow? {
      BorrowAddsNewLoan(a, c, f);
      NewLoanIsMatched(c.principal, if c.termWeeks <= 0 then 52 else c.termWeeks, c.loanType,
                       BorrowingRate(c.loanType, c.policy));
    } else if c.Finance? {
      var down, term := DownPayment(c.request), TermOf(c.request);
      if FinanceAllowed(c.request, c.policy) {
        FinanceWithAddsOne(a, c.request.model, down, term, c.policy.rateSecured, f);
        FinancingLoanIsMatched(c.request.model.price - down, c.policy.rateSecured, term, |a.fleet|);
      }
    } else {
      OnlyBorrowingAddsLoans(a, c, f);
    }
  }

  lemma ExecKeepsMatched(a: Airline, c: Command, f: Faults)
    requires AllMatched(a.loans)
    ensures AllMatched(Exec(a, c, f).0.loans)
  {
    var loans := Exec(a, c, f).0.loans;
    ExecEvolves(a, c, f);
    forall i | 0 <= i < |loans|
      ensures Matched(loans[i])
    {
      if i < |a.loans| {
        ChangeKeepsMatched(c, i, a.loans[i], loans[i]);
      } else {
        NewLoansAreMatched(a, c, f, i);
      }
    }
  }

  /** Every command keeps the two installments of every loan matched, so they are in every run that starts
      from matched loans, or from none. */
  lemma {:induction false} RunKeepsMatched(a: Airline, calls: seq<Call>)
    requires AllMatched(a.loans)
    ensures AllMatched(Run(a, calls).loans)
    decreases calls
  {
    if calls != [] {
      RunKeepsMatched(a, calls[..|calls| - 1]);
      ExecKeepsMatched(Run(a, calls[..|calls| - 1]), calls[|calls| - 1].command, calls[|calls| - 1].faults);
    }
  }

  // Active, owing something, and short of the misses that end it.
  ghost predicate Owing(l: Loan) {
    l.status.Active? && l.remaining > 0 && l.missed < ServiceOf(l).limit
  }

  // ----- how long a loan lasts

  function CeilOf(x: int, p: int): int
    requires p > 0
  {
    (x + p - 1) / p
  }

  lemma QuotientIs(x: int, p: int, q: int)
    requires p > 0 && 0 <= x - p * q < p
    ensures x / p == q
  {
    assert x == p * (x / p) + x % p;
    assert -p < p * (x / p - q) < p;
    NoMultipleBetween(x / p - q, p);
  }

  lemma NoMultipleBetween(k: int, p: int)
    requires p > 0 && -p < p * k < p
    ensures k == 0
  {
  }

  lemma CeilOfLess(x: int, p: int)
    requires p > 0
    ensures CeilOf(x - p, p) == CeilOf(x, p) - 1
  {
    var q := CeilOf(x, p);
    assert x + p - 1 == p * q + (x + p - 1) % p;
    assert p * (q - 1) == p * q - p;
    QuotientIs(x - 1, p, q - 1);
  }

  lemma CeilOfOrder(x: int, y: int, p: int)
    requires p > 0 && x <= y
    ensures CeilOf(x, p) <= CeilOf(y, p)
  {
    var q, r := CeilOf(x, p), CeilOf(y, p);
    assert x + p - 1 == p * q + (x + p - 1) % p && y + p - 1 == p * r + (y + p - 1) % p;
    assert p * (q - r) == p * q - p * r < p;
    NonPositive(q - r, p);
  }

  lemma NonPositive(k: int, p: int)
    requires p > 0 && p * k < p
    ensures k <= 0
  {
  }

  function LateFee(s: Service, p: int): int {
    Round(p as real * s.feePct)
  }

  // All the fees a loan can collect before it is ended stay below one installment.
  lemma FeesStayBelowOneInstallment(s: Service, p: int)
    requires s == LOAN_SERVICE || s == FINANCING_SERVICE
    requires p > 0
    ensures 0 <= LateFee(s, p) && (s.limit - 1) * LateFee(s, p) < p
  {
    RoundIsNearest(p as real * s.feePct);
    if p <= 2 {
      RoundTo(p as real * s.feePct, 0);
    }
  }

  // Service rounds a loan can still last: the installments for what is owed and all fees to come, and the
  // misses it has left.
  function RoundsLeft(l: Loan): int
    requires l.weekly > 0
  {
    var s := ServiceOf(l);
    var misses := s.limit - 1 - l.missed;
    CeilOf(l.remaining + misses * LateFee(s, l.weekly), l.weekly) + misses
  }

  lemma RoundsLeftBounds(l: Loan)
    requires Owing(l) && l.weekly > 0
    ensures 1 <= RoundsLeft(l) <= CeilOf(l.remaining, l.weekly) + ServiceOf(l).limit
  {
    var s := ServiceOf(l);
    var misses, fee := s.limit - 1 - l.missed, LateFee(s, l.weekly);
    FeesStayBelowOneInstallment(s, l.weekly);
    assert 0 <= misses * fee <= (s.limit - 1) * fee;
    CeilOfOrder(1, l.remaining + misses * fee, l.weekly);
    CeilOfOrder(l.remaining + misses * fee, l.remaining + l.weekly, l.weekly);
    CeilOfLess(l.remaining + l.weekly, l.weekly);
  }

  lemma PaymentUsesARound(s: Service, l: Loan)
    requires Owing(l) && l.weekly > 0 && s == ServiceOf(l)
    requires AfterPayment(l, l.weekly as real).status.Active?
    ensures RoundsLeft(AfterPayment(l, l.weekly as real)) == RoundsLeft(l) - 1
  {
    WholePaymentIsExact(l, l.weekly);
    CeilOfLess(l.remaining + (s.limit - 1 - l.missed) * LateFee(s, l.weekly), l.weekly);
  }

  lemma MissUsesARound(s: Service, l: Loan)
    requires Owing(l) && l.weekly > 0 && s == ServiceOf(l)
    requires AfterMiss(s, l).status.Active?
    ensures RoundsLeft(AfterMiss(s, l)) == RoundsLeft(l) - 1
  {
    MissOwes(s, l);
    OneFeeLess(s.limit - 1 - l.missed, LateFee(s, l.weekly));
  }

  lemma MissOwes(s: Service, l: Loan)
    requires l.weekly > 0 && l.remaining >= 0 && (s == LOAN_SERVICE || s == FINANCING_SERVICE)
    ensures AfterMiss(s, l).remaining == l.remaining + LateFee(s, l.weekly)
  {
    RoundTo2(l.remaining, l.weekly as real * s.feePct);
  }

  lemma OneFeeLess(misses: int, fee: int)
    ensures (misses - 1) * fee == misses * fee - fee
  {
  }

  lemma InstallmentUsesARound(s: Service, l: Loan, l': Loan)
    requires Owing(l) && l.weekly > 0 && s == ServiceOf(l) && ServedAs(s, l, l') && l'.status.Active?
    ensures l'.weekly == l.weekly && RoundsLeft(l') == RoundsLeft(l) - 1
  {
    if l' == AfterPayment(l, l.weekly as real) {
      PaymentUsesARound(s, l);
    } else {
      MissUsesARound(s, l);
    }
  }

  lemma RoundTo2(n: int, x: real)
    requires n >= 0 && x >= 0.0
    ensures Round(n as real + x) == n + Round(x)
  {
  }

  lemma RepaymentUsesNoRound(l: Loan, payment: real)
    requires Owing(l) && l.weekly > 0 && payment > 0.0
    requires AfterPayment(l, payment).status.Active?
    ensures RoundsLeft(AfterPayment(l, payment)) <= RoundsLeft(l)
  {
    PaymentSettlesIff(l, payment);
    var s := ServiceOf(l);
    var fees := (s.limit - 1 - l.missed) * LateFee(s, l.weekly);
    CeilOfOrder(AfterPayment(l, payment).remaining + fees, l.remaining + fees, l.weekly);
  }

  // ----- every round counts

  // The loop's cash has fallen behind the balance by what worthless installments took off it, if at all.
  lemma ServeOneServes(s: Service, a: Airline, cash: real, id: nat)
    requires id < |a.loans| && Matched(a.loans[id]) && cash <= a.account.balance as real
    ensures var (a', cash') := ServeOne(s, a, cash, id);
            && cash' <= a'.account.balance as real
            && (Serves(s, a.loans[id]) && a.loans[id].weekly > 0 ==> ServedAs(s, a.loans[id], a'.loans[id]))
            && (forall i :: 0 <= i < |a.loans| && i != id ==> a'.loans[i] == a.loans[i])
  {
    var l := a.loans[id];
    RoundWhole(a.account.balance);
    RoundKeepsOrder(cash, a.account.balance as real);
    if l.weekly > 0 {
      RoundWhole(l.weekly);
    } else if Installment(l) > 0.0 {
      FallbackIsWorthless(l);
      RoundTo(Installment(l), 0);
    }
  }

  lemma {:induction false} ServiceServes(s: Service, a: Airline, cash: real, from: nat, id: nat)
    requires from <= id < |a.loans| && AllMatched(a.loans) && cash <= a.account.balance as real
    requires Serves(s, a.loans[id]) && a.loans[id].weekly > 0
    ensures |ServeFrom(s, a, cash, from).loans| == |a.loans|
    ensures ServedAs(s, a.loans[id], ServeFrom(s, a, cash, from).loans[id])
    decreases id - from
  {
    var (a', cash') := ServeOne(s, a, cash, from);
    ServeOneServes(s, a, cash, from);
    ServiceEvolves(s, a', cash', from + 1);
    if from < id {
      MatchedAfterOne(s, a, cash, from);
      ServiceServes(s, a', cash', from + 1, id);
    }
  }

  lemma MatchedAfterOne(s: Service, a: Airline, cash: real, id: nat)
    requires id < |a.loans| && AllMatched(a.loans) && cash <= a.account.balance as real
    ensures AllMatched(ServeOne(s, a, cash, id).0.loans)
  {
    ServeOneServes(s, a, cash, id);
    var loans := ServeOne(s, a, cash, id).0.loans;
    assert loans[id].weekly == a.loans[id].weekly && loans[id].monthly == a.loans[id].monthly;
    forall i | 0 <= i < |loans|
      ensures Matched(loans[i])
    {
      assert Matched(a.loans[i]);
    }
  }

  predicate IsServiceOf(c: Command, l: Loan) {
    if l.loanType.AircraftFinancing? then c.ServeFinancing? else c.ServeLoans?
  }

  function ServiceRounds(calls: seq<Call>, l: Loan): nat {
    if calls == [] then 0
    else ServiceRounds(calls[..|calls| - 1], l) + if IsServiceOf(calls[|calls| - 1].command, l) then 1 else 0
  }

  // Any command but a refinancing of this very loan.
  predicate LeavesTerms(c: Command, id: nat) {
    !(c.RefinanceLoan? && c.id == id)
  }

  lemma CommandUsesRounds(a: Airline, c: Command, f: Faults, id: nat)
    requires id < |a.loans| && Owing(a.loans[id]) && a.loans[id].weekly > 0 && AllMatched(a.loans) && LeavesTerms(c, id)
    requires id < |Exec(a, c, f).0.loans| && Exec(a, c, f).0.loans[id].status.Active?
    ensures var l, l' := a.loans[id], Exec(a, c, f).0.loans[id];
            && l'.weekly == l.weekly && l'.loanType == l.loanType && Owing(l')
            && RoundsLeft(l') <= RoundsLeft(l) - if IsServiceOf(c, l) then 1 else 0
  {
    var l, l' := a.loans[id], Exec(a, c, f).0.loans[id];
    ExecEvolves(a, c, f);
    if IsServiceOf(c, l) {
      var s := ServiceOf(l);
      ServiceServes(s, a, a.account.balance as real, 0, id);
      InstallmentUsesARound(s, l, l');
    } else if l' != l {
      RepaymentUsesNoRound(l, Owed(l, c.amount));
    }
  }

  lemma {:induction false} ActiveLoanHasRoundsLeft(a: Airline, calls: seq<Call>, id: nat)
    requires id < |a.loans| && Owing(a.loans[id]) && a.loans[id].weekly > 0 && AllMatched(a.loans)
    requires forall call :: call in calls ==> LeavesTerms(call.command, id)
    ensures id < |Run(a, calls).loans|
    ensures var l, l' := a.loans[id], Run(a, calls).loans[id];
            l'.status.Active? ==>
              && l'.weekly == l.weekly && l'.loanType == l.loanType && Owing(l')
              && RoundsLeft(l') <= RoundsLeft(l) - ServiceRounds(calls, l)
    decreases calls
  {
    if calls != [] {
      var shorter, last := calls[..|calls| - 1], calls[|calls| - 1];
      var before := Run(a, shorter);
      ActiveLoanHasRoundsLeft(a, shorter, id);
      RunKeepsMatched(a, shorter);
      ExecEvolves(before, last.command, last.faults);
      if Run(a, calls).loans[id].status.Active? {
        CommandUsesRounds(before, last.command, last.faults, id);
      }
    }
  }

  /** Whatever the cash does and whatever else the player does short of refinancing it, an active loan of weekly
      installment p owing r has left `active` once it has been served ceil(r/p) + 4 times, ceil(r/p) + 3 for
      aircraft financing. Misses are never taken back and all late fees together are worth less than one
      installment; the player's other loans only have to be as the commands make them. */
  lemma LoansEnd(a: Airline, calls: seq<Call>, id: nat)
    requires id < |a.loans| && Owing(a.loans[id]) && a.loans[id].weekly > 0 && AllMatched(a.loans)
    requires forall call :: call in calls ==> LeavesTerms(call.command, id)
    requires ServiceRounds(calls, a.loans[id])
             >= CeilOf(a.loans[id].remaining, a.loans[id].weekly)
                + if a.loans[id].loanType.AircraftFinancing? then 3 else 4
    ensures id < |Run(a, calls).loans| && !Run(a, calls).loans[id].status.Active?
  {
    ActiveLoanHasRoundsLeft(a, calls, id);
    RoundsLeftBounds(a.loans[id]);
    if Run(a, calls).loans[id].status.Active? {
      RoundsLeftBounds(Run(a, calls).loans[id]);
    }
  }

  // ----- why the other loans matter

  // A loan row no command makes: no weekly installment, and a monthly one worth more than a cent a week.
  predicate Unmatched(l: Loan) {
    l.status.Active? && !l.loanType.AircraftFinancing? && l.weekly == 0 && l.monthly == Some(7) && l.remaining > 2
  }

  const EACH := 7.0 / WEEKS_PER_MONTH

  lemma UnmatchedTakesTwoCents(a: Airline, cash: real, id: nat)
    requires id < |a.loans| && Unmatched(a.loans[id]) && Round(cash) >= 2 && a.account.balance >= 2
    ensures var (a', cash') := ServeOne(LOAN_SERVICE, a, cash, id);
            && a'.account.balance == a.account.balance - 2 && cash' == cash - EACH
            && |a'.loans| == |a.loans| && forall i :: 0 <= i < |a.loans| && i != id ==> a'.loans[i] == a.loans[i]
  {
    RoundTo(EACH, 2);
    assert Installment(a.loans[id]) == EACH;
  }

  lemma PassedOver(a: Airline, cash: real, id: nat)
    requires id < |a.loans| && a.loans[id].weekly > 0
    requires a.account.balance < a.loans[id].weekly <= Round(cash)
    ensures ServeOne(LOAN_SERVICE, a, cash, id) == (a, cash)
  {
    RoundWhole(a.loans[id].weekly);
  }

  lemma ServingThree(a: Airline, cash: real)
    requires |a.loans| == 3
    ensures var (a1, cash1) := ServeOne(LOAN_SERVICE, a, cash, 0);
            var (a2, cash2) := ServeOne(LOAN_SERVICE, a1, cash1, 1);
            ServeFrom(LOAN_SERVICE, a, cash, 0) == ServeOne(LOAN_SERVICE, a2, cash2, 2).0
  {
    var (a1, cash1) := ServeOne(LOAN_SERVICE, a, cash, 0);
    var (a2, cash2) := ServeOne(LOAN_SERVICE, a1, cash1, 1);
    var (a3, cash3) := ServeOne(LOAN_SERVICE, a2, cash2, 2);
    assert ServeFrom(LOAN_SERVICE, a3, cash3, 3) == a3;
    assert ServeFrom(LOAN_SERVICE, a2, cash2, 2) == a3;
    assert ServeFrom(LOAN_SERVICE, a1, cash1, 1) == a3;
  }

  /** With rows the commands do not make, a round can pass a loan over: two such loans cost four cents but take
      less off the loop's own cash, which then still promises an installment the balance no longer holds. */
  lemma UnmatchedLoansCanHideAnother(a: Airline, p: nat)
    requires |a.loans| == 3 && Unmatched(a.loans[0]) && Unmatched(a.loans[1])
    requires Serves(LOAN_SERVICE, a.loans[2]) && a.loans[2].weekly == p > 0 && a.account.balance == p + 3
    ensures !Matched(a.loans[0]) && !Matched(a.loans[1])
    ensures |Serve(LOAN_SERVICE, a).loans| == 3 && Serve(LOAN_SERVICE, a).loans[2] == a.loans[2]
    ensures Serve(LOAN_SERVICE, a).account.balance == a.account.balance - 4
  {
    var cash := a.account.balance as real;
    RoundWhole(p + 3);
    RoundTo(cash - EACH, p + 1);
    RoundTo(cash - EACH - EACH, p);
    UnmatchedTakesTwoCents(a, cash, 0);
    var (a1, cash1) := ServeOne(LOAN_SERVICE, a, cash, 0);
    UnmatchedTakesTwoCents(a1, cash1, 1);
    var (a2, cash2) := ServeOne(LOAN_SERVICE, a1, cash1, 1);
    PassedOver(a2, cash2, 2);
    ServingThree(a, cash);
  }
}
