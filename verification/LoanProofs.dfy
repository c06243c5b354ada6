/** The life of a loan over every run of commands: statuses, what is owed, refinancing, and how long it lasts. */
module LoanProofs {
  import opened Sequences
  import opened Money
  import opened Airline
  import opened Fleet
  import opened Bank
  import opened DayBoundary
  import opened AirlineRuns

  function ServiceOf(l: Loan): Service {
    if l.loanType.AircraftFinancing? then FINANCING_SERVICE else LOAN_SERVICE
  }

  ghost predicate LoanInv(l: Loan) {
    && l.rate <= 1.0
    && (l.status.Active? ==> l.remaining > 0 && l.missed < ServiceOf(l).limit)
    && (l.status.PaidOff? ==> l.remaining == 0)
  }

  // ----- payments

  /** A payment settles the loan exactly when less than a cent would be left; otherwise something is left and
      it is no more than before. A settled loan owes nothing unless exactly half a cent was left, which the
      column rounds up to a whole one. */
  lemma PaymentSettlesIff(l: Loan, payment: real)
    requires l.status.Active? && l.remaining > 0 && payment > 0.0
    ensures var l' := AfterPayment(l, payment);
            && (l'.status.PaidOff? <==> l.remaining as real - payment <= HALF_CENT)
            && (!l'.status.PaidOff? ==> l'.status.Active? && 0 < l'.remaining <= l.remaining)
            && (l'.status.PaidOff? ==> (l'.remaining == 0 <==> l.remaining as real - payment != HALF_CENT))
  {
    var left := MaxReal(0.0, l.remaining as real - payment);
    RoundIsNearest(left);
    RoundWhole(l.remaining);
    RoundKeepsOrder(left, l.remaining as real);
    if left < 0.5 {
      RoundTo(left, 0);
    }
  }

  lemma WholePaymentIsExact(l: Loan, payment: int)
    requires l.status.Active? && l.remaining > 0 && payment > 0
    ensures var l' := AfterPayment(l, payment as real);
            && (payment < l.remaining ==> l'.status.Active? && l'.remaining == l.remaining - payment)
            && (payment >= l.remaining ==> l'.status.PaidOff? && l'.remaining == 0)
  {
    RoundWhole(l.remaining - payment);
    RoundWhole(0);
  }

  // An installment never leaves exactly half a cent: a weekly one is whole, and 4.33 divides no odd half.
  lemma InstallmentLeavesNoHalf(l: Loan)
    requires Installment(l) > 0.0
    ensures l.remaining as real - Installment(l) != HALF_CENT
  {
  }

  /** Without a weekly payment the installment falls back to the monthly one over 4.33 weeks. One worth less
      than half a cent debits nothing and reduces nothing, so such a loan is never settled by the day boundary:
      the installment counts exactly from three cents a month. */
  lemma FallbackInstallmentCountsIff(l: Loan)
    requires l.status.Active? && l.remaining > 0
    requires l.weekly <= 0 && l.monthly.Some? && l.monthly.value > 0
    ensures AfterPayment(l, Installment(l)) != l <==> l.monthly.value >= 3
    ensures Round(Installment(l)) > 0 <==> l.monthly.value >= 3
  {
    var m, x := l.monthly.value, Installment(l);
    assert x * WEEKS_PER_MONTH == m as real;
    RoundIsNearest(x);
    if m <= 2 {
      RoundTo(x, 0);
      RoundTo(l.remaining as real - x, l.remaining);
      assert AfterPayment(l, x).monthly == l.monthly;
    } else {
      PaymentSettlesIff(l, x);
      RoundIsNearest(MaxReal(0.0, l.remaining as real - x));
    }
  }

  // ----- what one command does to one loan

  ghost predicate ServedAs(s: Service, l: Loan, l': Loan) {
    Serves(s, l) && Installment(l) > 0.0 && (l' == AfterPayment(l, Installment(l)) || l' == AfterMiss(s, l))
  }

  ghost predicate Becomes(c: Command, id: nat, l: Loan, l': Loan) {
    l' == l || (l.status.Active? && Changes(c, id, l, l'))
  }

  ghost predicate Changes(c: Command, id: nat, l: Loan, l': Loan) {
    match c
    case RepayLoan(i, amount) => i == id && Owed(l, amount) > 0.0 && l' == AfterPayment(l, Owed(l, amount))
    case RefinanceLoan(i, p) =>
      i == id && l.monthly.Some? && OfferedRate(l, p) < l.rate && l' == Refinanced(l, OfferedRate(l, p))
    case ServeLoans => ServedAs(LOAN_SERVICE, l, l')
    case ServeFinancing => ServedAs(FINANCING_SERVICE, l, l')
    case NegativeDay(_) => l' == Defaulting(l)
    case Bankruptcy => l' == Defaulting(l)
    case _ => false
  }

  ghost predicate IsNew(l: Loan) {
    l.status.Active? && l.missed == 0 && l.remaining > 0
  }

  lemma {:induction false} ServiceEvolves(s: Service, a: Airline, cash: real, id: nat)
    ensures var a' := ServeFrom(s, a, cash, id);
            && |a'.loans| == |a.loans|
            && (forall i :: 0 <= i < |a.loans| && i < id ==> a'.loans[i] == a.loans[i])
            && (forall i :: id <= i < |a.loans| ==> a'.loans[i] == a.loans[i] || ServedAs(s, a.loans[i], a'.loans[i]))
    decreases |a.loans| - id
  {
    if id < |a.loans| {
      var (a', cash') := ServeOne(s, a, cash, id);
      ServiceEvolves(s, a', cash', id + 1);
    }
  }

  lemma FinancedLoanOwesThePrincipal(principal: int, rate: Rate)
    requires principal > 0
    ensures Round(principal as real * (1.0 + rate)) >= principal
  {
    assert principal as real * rate >= 0.0;
    RoundKeepsOrder(principal as real, principal as real * (1.0 + rate));
    RoundWhole(principal);
  }

  // The loans before a command are still there after it, each changed as it may be, and a new one may follow.
  ghost predicate Evolved(c: Command, loans: seq<Loan>, loans': seq<Loan>) {
    && |loans| <= |loans'|
    && (forall i :: 0 <= i < |loans| ==> Becomes(c, i, loans[i], loans'[i]))
    && (forall i :: |loans| <= i < |loans'| ==> IsNew(loans'[i]))
  }

  lemma BorrowEvolves(a: Airline, c: Command, f: Faults)
    requires c.Borrow?
    ensures Evolved(c, a.loans, Exec(a, c, f).0.loans)
  {
  }

  lemma FinanceEvolves(a: Airline, c: Command, f: Faults)
    requires c.Finance?
    ensures Evolved(c, a.loans, Exec(a, c, f).0.loans)
  {
    if FinanceAllowed(c.request, c.policy) {
      var m, down, term, rate := c.request.model, DownPayment(c.request), TermOf(c.request), c.policy.rateSecured;
      FinanceWithAddsOne(a, m, down, term, rate, f);
    }
  }

  lemma FinanceWithAddsOne(a: Airline, m: Model, down: int, term: int, rate: Rate, f: Faults)
    requires term > 0
    ensures var loans := FinanceWith(a, m, down, term, rate, f).0.loans;
            || loans == a.loans
            || (m.price - down > 0 && loans == a.loans + [FinancingLoan(m.price - down, rate, term, |a.fleet|)]
                && IsNew(loans[|a.loans|]))
  {
    if m.price - down > 0 {
      FinancedLoanOwesThePrincipal(m.price - down, rate);
    }
  }

  lemma FleetLeavesLoans(a: Airline, c: Command, f: Faults)
    requires c.BuyAircraft? || c.LeaseAircraft? || c.SellAircraft? || c.EndLease? || c.RepairAircraft?
    ensures Exec(a, c, f).0.loans == a.loans
  {
  }

  lemma RepayEvolves(a: Airline, c: Command, f: Faults)
    requires c.RepayLoan?
    ensures Evolved(c, a.loans, Exec(a, c, f).0.loans)
  {
  }

  lemma {:induction false} PostLeavesRest(a: Airline, postings: seq<Posting>, f: Faults)
    ensures Post(a, postings, f).Some? ==>
              Post(a, postings, f).value == a.(account := Post(a, postings, f).value.account)
    decreases postings
  {
    if postings != [] {
      PostLeavesRest(a, postings[..|postings| - 1], f);
    }
  }

  lemma ExecEvolves(a: Airline, c: Command, f: Faults)
    ensures Evolved(c, a.loans, Exec(a, c, f).0.loans)
  {
    match c
    case Borrow(_, _, _, _, _) => BorrowEvolves(a, c, f);
    case RepayLoan(_, _) => RepayEvolves(a, c, f);
    case RefinanceLoan(_, _) =>
    case Finance(_, _) => FinanceEvolves(a, c, f);
    case ServeLoans => ServiceEvolves(LOAN_SERVICE, a, a.account.balance as real, 0);
    case ServeFinancing => ServiceEvolves(FINANCING_SERVICE, a, a.account.balance as real, 0);
    case NegativeDay(_) =>
    case Bankruptcy =>
    case Simulate(postings) => PostLeavesRest(a, postings, f);
    case _ => FleetLeavesLoans(a, c, f);
  }

  // ----- statuses

  /** `paid_off`, `defaulted` and `repossessed` are absorbing: once a loan is not active no run of commands
      changes anything in it again. */
  lemma {:induction false} SettledLoansNeverChange(a: Airline, calls: seq<Call>, id: nat)
    requires id < |a.loans| && !a.loans[id].status.Active?
    ensures id < |Run(a, calls).loans| && Run(a, calls).loans[id] == a.loans[id]
    decreases calls
  {
    if calls != [] {
      var shorter, last := calls[..|calls| - 1], calls[|calls| - 1];
      SettledLoansNeverChange(a, shorter, id);
      ExecEvolves(Run(a, shorter), last.command, last.faults);
    }
  }

  // Rates a policy can hold without a refinancing rounding a debt away, and repayments in whole cents.
  ghost predicate Plain(c: Command) {
    match c
    case Borrow(_, _, _, _, p) => p.rateUnsecured <= 0.98
    case Finance(_, p) => p.rateSecured <= 1.0
    case RefinanceLoan(_, p) => p.rateUnsecured <= 1.0 && p.rateSecured <= 1.0
    case RepayLoan(_, amount) => amount.Some? ==> amount.value == Round(amount.value) as real
    case _ => true
  }

  lemma MissKeepsLoanInv(s: Service, l: Loan)
    requires s == ServiceOf(l) && LoanInv(l) && Serves(s, l) && Installment(l) > 0.0
    ensures LoanInv(AfterMiss(s, l))
    ensures AfterMiss(s, l).remaining >= l.remaining
  {
    assert Installment(l) * s.feePct >= 0.0;
    RoundWhole(l.remaining);
    RoundKeepsOrder(l.remaining as real, l.remaining as real + Installment(l) * s.feePct);
  }

  lemma RefinancedStillOwes(l: Loan, newRate: Rate)
    requires l.remaining > 0 && l.rate <= 1.0 && l.monthly.Some?
    ensures Refinanced(l, newRate).remaining > 0
  {
    var q := l.remaining as real / (1.0 + l.rate);
    assert q * (1.0 + l.rate) == l.remaining as real;
    assert q >= 0.5;
    assert q * (1.0 + newRate) >= q;
    RoundKeepsOrder(0.5, q * (1.0 + newRate));
    assert Round(0.5) == 1;
  }

  lemma ChangeKeepsLoanInv(c: Command, id: nat, l: Loan, l': Loan)
    requires LoanInv(l) && Becomes(c, id, l, l') && Plain(c)
    ensures LoanInv(l')
  {
    if l' != l {
      match c
      case RepayLoan(_, amount) => WholePaymentIsExact(l, Round(Owed(l, amount))); RoundWhole(l.remaining);
      case RefinanceLoan(_, p) => RefinancedStillOwes(l, OfferedRate(l, p));
      case ServeLoans => InstallmentKeepsLoanInv(LOAN_SERVICE, l, l');
      case ServeFinancing => InstallmentKeepsLoanInv(FINANCING_SERVICE, l, l');
      case _ =>
    }
  }

  lemma InstallmentKeepsLoanInv(s: Service, l: Loan, l': Loan)
    requires LoanInv(l) && ServedAs(s, l, l') && s == ServiceOf(l)
    ensures LoanInv(l')
  {
    MissKeepsLoanInv(s, l);
    PaymentSettlesIff(l, Installment(l));
    InstallmentLeavesNoHalf(l);
  }

  // New loans carry a rate a policy allows.
  lemma NewLoansKeepLoanInv(a: Airline, c: Command, f: Faults)
    requires Plain(c)
    ensures forall i :: |a.loans| <= i < |Exec(a, c, f).0.loans| ==> LoanInv(Exec(a, c, f).0.loans[i])
  {
    ExecEvolves(a, c, f);
    if c.Finance? && FinanceAllowed(c.request, c.policy) {
      FinanceWithAddsOne(a, c.request.model, DownPayment(c.request), TermOf(c.request), c.policy.rateSecured, f);
    }
    if !c.Borrow? && !c.Finance? {
      OnlyBorrowingAddsLoans(a, c, f);
    }
  }

  lemma OnlyBorrowingAddsLoans(a: Airline, c: Command, f: Faults)
    requires !c.Borrow? && !c.Finance?
    ensures |Exec(a, c, f).0.loans| == |a.loans|
  {
    match c
    case RepayLoan(_, _) =>
    case RefinanceLoan(_, _) =>
    case ServeLoans => ServiceEvolves(LOAN_SERVICE, a, a.account.balance as real, 0);
    case ServeFinancing => ServiceEvolves(FINANCING_SERVICE, a, a.account.balance as real, 0);
    case NegativeDay(_) =>
    case Bankruptcy =>
    case Simulate(postings) => PostLeavesRest(a, postings, f);
    case _ => FleetLeavesLoans(a, c, f);
  }

  /** Over every run with repayments in whole cents, failures included: an active loan owes something and has
      missed fewer installments than end it, and a paid-off loan owes nothing. */
  lemma {:induction false} RunKeepsLoanInv(a: Airline, calls: seq<Call>)
    requires forall l :: l in a.loans ==> LoanInv(l)
    requires forall call :: call in calls ==> Plain(call.command)
    ensures forall l :: l in Run(a, calls).loans ==> LoanInv(l)
    decreases calls
  {
    if calls != [] {
      var shorter, last := calls[..|calls| - 1], calls[|calls| - 1];
      RunKeepsLoanInv(a, shorter);
      var before := Run(a, shorter);
      ExecEvolves(before, last.command, last.faults);
      NewLoansKeepLoanInv(before, last.command, last.faults);
      forall i | 0 <= i < |before.loans|
        ensures LoanInv(Run(a, calls).loans[i])
      {
        ChangeKeepsLoanInv(last.command, i, before.loans[i], Run(a, calls).loans[i]);
      }
    }
  }

  // ----- the financed aircraft

  // The aircraft a financing loan stands for, while the player still owes on it.
  predicate Secures(a: Airline, id: nat) {
    && id < |a.loans|
    && a.loans[id].status.Active? && a.loans[id].loanType.AircraftFinancing? && a.loans[id].collateral.Some?
    && Owns(a, a.loans[id].collateral.value)
    && a.fleet[a.loans[id].collateral.value].acquisition.Financed?
  }

  /** A repayment that settles a financing loan makes the aircraft the player's own. */
  lemma RepaymentReleasesTheAircraft(a: Airline, id: nat, amount: Option<real>, f: Faults)
    requires Secures(a, id)
    ensures var (a', outcome) := Repay(a, id, amount, f);
            outcome.Accepted? ==>
              (a'.fleet[a.loans[id].collateral.value].acquisition.Bought? <==> a'.loans[id].status.PaidOff?)
  {
  }

  lemma {:induction false} ServiceKeepsAcquisitions(s: Service, a: Airline, cash: real, id: nat)
    ensures var a' := ServeFrom(s, a, cash, id);
            |a'.fleet| == |a.fleet|
            && forall i :: 0 <= i < |a.fleet| ==>
                 a'.fleet[i].acquisition == a.fleet[i].acquisition && a'.fleet[i].present == a.fleet[i].present
    decreases |a.loans| - id
  {
    if id < |a.loans| {
      var (a', cash') := ServeOne(s, a, cash, id);
      ServiceKeepsAcquisitions(s, a', cash', id + 1);
    }
  }

  /** The last installment taken by the day boundary does not: the aircraft stays `finance`, so with nothing
      owed on it any more it still cannot be sold. */
  lemma InstallmentsNeverReleaseTheAircraft(a: Airline, id: nat, f: Faults)
    requires Secures(a, id)
    ensures var craft := a.loans[id].collateral.value;
            var a' := Serve(FINANCING_SERVICE, a);
            Owns(a', craft) && a'.fleet[craft].acquisition.Financed? && Sell(a', craft, f) == (a', Refused)
  {
    ServiceKeepsAcquisitions(FINANCING_SERVICE, a, a.account.balance as real, 0);
  }
}
