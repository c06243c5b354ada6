/** No command creates wealth: cash and aircraft at list price, less what is owed, never grow. */
module WealthProofs {
  import opened Sequences
  import opened Money
  import opened Airline
  import opened Fleet
  import opened Bank
  import opened DayBoundary
  import opened AirlineRuns
  import opened LoanProofs

  // A leased aircraft is not the player's; one bought or being financed counts at its list price.
  function ListValue(craft: Aircraft): int {
    if craft.present && !craft.acquisition.Leased? then craft.model.price else 0
  }

  // Unpaid debt, whether the loan is still served or was ended with something owed on it.
  function Unpaid(l: Loan): int {
    if l.status.PaidOff? then 0 else l.remaining
  }

  function ActiveDebt(l: Loan): int {
    if l.status.Active? then l.remaining else 0
  }

  function FleetValue(fleet: seq<Aircraft>): int {
    Total(ListValue, fleet)
  }

  function NetWorth(a: Airline): int {
    a.account.balance + FleetValue(a.fleet) - Total(Unpaid, a.loans)
  }

  // ----- payments

  /** A payment never takes less from the account than it takes off the debt, however either rounds. */
  lemma PaymentNeverGains(l: Loan, payment: real)
    requires l.status.Active? && payment > 0.0
    ensures Unpaid(l) - Unpaid(AfterPayment(l, payment)) <= Round(payment)
  {
    var left := l.remaining as real - payment;
    RoundIsNearest(left);
    RoundIsNearest(payment);
  }

  lemma DebitLowersBalance(a: Airline, amount: real, category: string, subcategory: string, fails: bool)
    ensures var r := DebitTx(a, amount, category, subcategory, fails);
            r.Some? ==> && r.value == a.(account := r.value.account)
                        && r.value.account.balance == a.account.balance - Round(amount)
                        && Round(amount) >= 0
  {
  }

  lemma CreditRaisesBalance(a: Airline, amount: real, category: string, subcategory: string, fails: bool)
    ensures var r := CreditTx(a, amount, category, subcategory, fails);
            r.Some? ==> && r.value == a.(account := r.value.account)
                        && r.value.account.balance == a.account.balance + Round(amount)
  {
  }

  // ----- commands

  lemma PurchaseNeverGains(a: Airline, o: Order, f: Faults)
    ensures NetWorth(Purchase(a, o, f).0) <= NetWorth(a)
  {
    RoundWhole(o.model.price);
    DebitLowersBalance(a, o.model.price as real, "investing", "aircraft_purchase", f.ledger);
    TotalOfAppend(ListValue, a.fleet, Delivered(o.model, Bought));
  }

  lemma LeaseNeverGains(a: Airline, o: Order, basePct: real, f: Faults)
    ensures NetWorth(Lease(a, o, basePct, f).0) <= NetWorth(a)
  {
    DebitLowersBalance(a, LeaseDeposit(o.model.price, o.model.leasePrice, basePct), "investing",
                       "aircraft_lease_deposit", f.ledger);
    TotalOfAppend(ListValue, a.fleet, Delivered(o.model, Leased));
  }

  lemma SellNeverGains(a: Airline, id: nat, f: Faults)
    ensures NetWorth(Sell(a, id, f).0) <= NetWorth(a)
  {
    if Owns(a, id) {
      var craft := a.fleet[id];
      var value := SaleValue(craft.condition, craft.model.price, craft.acquired, a.gameTime);
      SaleStaysInBounds(craft.condition, craft.model.price, craft.acquired, a.gameTime);
      CreditRaisesBalance(a, value, "investing", "aircraft_sale", f.ledger);
      TotalOfUpdate(ListValue, a.fleet, id, craft.(present := false));
    }
  }

  lemma EndLeaseNeverGains(a: Airline, id: nat, f: Faults)
    ensures NetWorth(TerminateLease(a, id, f).0) <= NetWorth(a)
  {
    if Owns(a, id) {
      DebitLowersBalance(a, LeaseExitFee(a.fleet[id].model.leasePrice), "opex", "lease_termination", f.ledger);
      TotalOfUpdate(ListValue, a.fleet, id, a.fleet[id].(present := false));
    }
  }

  lemma RepairNeverGains(a: Airline, id: nat, f: Faults)
    ensures NetWorth(Repair(a, id, f).0) <= NetWorth(a)
  {
    if Owns(a, id) {
      DebitLowersBalance(a, RepairCost(a.fleet[id].condition, a.fleet[id].model.price), "cogs", "maintenance",
                         f.ledger);
      TotalOfUpdate(ListValue, a.fleet, id, a.fleet[id].(condition := 100.0, status := InService));
    }
  }

  lemma LendingKeepsNetWorth(a: Airline, l: Loan, account: Account)
    requires account.balance == a.account.balance + Unpaid(l)
    ensures NetWorth(a.(loans := a.loans + [l], account := account)) == NetWorth(a)
  {
    TotalOfAppend(Unpaid, a.loans, l);
  }

  lemma LentThenPaid(a: Airline, l: Loan, principal: real, f: Faults)
    requires Unpaid(l) == Round(principal)
    ensures var r := CreditTx(a.(loans := a.loans + [l]), principal, "financing", "loan_disbursement", f.ledger);
            r.Some? ==> NetWorth(r.value) == NetWorth(a)
  {
    var r := CreditTx(a.(loans := a.loans + [l]), principal, "financing", "loan_disbursement", f.ledger);
    CreditRaisesBalance(a.(loans := a.loans + [l]), principal, "financing", "loan_disbursement", f.ledger);
    if r.Some? {
      LendingKeepsNetWorth(a, l, r.value.account);
    }
  }

  lemma BorrowNeverGains(a: Airline, principal: real, termWeeks: int,
                         loanType: LoanType, collateral: bool, p: Policy, f: Faults)
    ensures NetWorth(TakeLoan(a, principal, termWeeks, loanType, collateral, p, f).0) <= NetWorth(a)
  {
    LentThenPaid(a, NewLoan(principal, if termWeeks <= 0 then 52 else termWeeks, loanType, BorrowingRate(loanType, p)),
                 principal, f);
  }

  lemma ReleaseKeepsFleetValue(a: Airline, l: Loan)
    ensures FleetValue(Released(a, l).fleet) == FleetValue(a.fleet)
    ensures Released(a, l) == a.(fleet := Released(a, l).fleet)
  {
    if Released(a, l) != a {
      var id := l.collateral.value;
      TotalOfUpdate(ListValue, a.fleet, id, a.fleet[id].(acquisition := Bought));
    }
  }

  lemma RepayNeverGains(a: Airline, id: nat, amount: Option<real>, f: Faults)
    ensures NetWorth(Repay(a, id, amount, f).0) <= NetWorth(a)
  {
    if id < |a.loans| && a.loans[id].status.Active? && Owed(a.loans[id], amount) > 0.0 {
      var payment := Owed(a.loans[id], amount);
      var loan := AfterPayment(a.loans[id], payment);
      PaymentNeverGains(a.loans[id], payment);
      DebitLowersBalance(a, payment, "financing", "loan_repayment", f.ledger);
      TotalOfUpdate(Unpaid, a.loans, id, loan);
      var paid := DebitTx(a, payment, "financing", "loan_repayment", f.ledger);
      if paid.Some? {
        ReleaseKeepsFleetValue(SetLoan(paid.value, id, loan), loan);
      }
    }
  }

  lemma BuyingOnCredit(a: Airline, account: Account, craft: Aircraft, l: Loan)
    requires account.balance + ListValue(craft) - Unpaid(l) <= a.account.balance
    ensures NetWorth(a.(account := account, fleet := a.fleet + [craft], loans := a.loans + [l])) <= NetWorth(a)
  {
    TotalOfAppend(ListValue, a.fleet, craft);
    TotalOfAppend(Unpaid, a.loans, l);
  }

  lemma FinanceBodyNeverGains(a: Airline, m: Model, down: int, term: int, rate: Rate, f: Faults)
    requires term > 0
    ensures var body := FinanceBody(a, m, down, term, rate, f);
            body.verdict.Commit? ==> NetWorth(body.work) <= NetWorth(a)
  {
    var body := FinanceBody(a, m, down, term, rate, f);
    if body.verdict.Commit? {
      var paid := DebitTx(a, down as real, "investing", "aircraft_purchase_deposit", f.ledger).value;
      var loan := FinancingLoan(m.price - down, rate, term, |a.fleet|);
      RoundWhole(down);
      DebitLowersBalance(a, down as real, "investing", "aircraft_purchase_deposit", f.ledger);
      FinancedLoanOwesThePrincipal(m.price - down, rate);
      assert Unpaid(loan) >= m.price - down;
      BuyingOnCredit(a, paid.account, Delivered(m, Financed), loan);
      assert body.work
          == a.(account := paid.account, fleet := a.fleet + [Delivered(m, Financed)], loans := a.loans + [loan]);
    }
  }

  lemma FinanceNeverGains(a: Airline, m: Model, down: int, term: int, rate: Rate, f: Faults)
    requires term > 0
    ensures NetWorth(FinanceWith(a, m, down, term, rate, f).0) <= NetWorth(a)
  {
    FinanceBodyNeverGains(a, m, down, term, rate, f);
  }

  lemma GroundingKeepsFleetValue(a: Airline, collateral: Option<nat>)
    ensures FleetValue(GroundCollateral(a, collateral).fleet) == FleetValue(a.fleet)
    ensures GroundCollateral(a, collateral) == a.(fleet := GroundCollateral(a, collateral).fleet)
  {
    if GroundCollateral(a, collateral) != a {
      var id := collateral.value;
      TotalOfUpdate(ListValue, a.fleet, id, a.fleet[id].(status := Grounded));
    }
  }

  lemma MissNeverGains(s: Service, a: Airline, id: nat)
    requires id < |a.loans| && a.loans[id].status.Active? && Installment(a.loans[id]) > 0.0
    requires s == LOAN_SERVICE || s == FINANCING_SERVICE
    ensures NetWorth(Miss(s, a, id)) <= NetWorth(a)
  {
    var l := AfterMiss(s, a.loans[id]);
    RoundWhole(a.loans[id].remaining);
    RoundKeepsOrder(a.loans[id].remaining as real, a.loans[id].remaining as real + Installment(a.loans[id]) * s.feePct);
    TotalOfUpdate(Unpaid, a.loans, id, l);
    GroundingKeepsFleetValue(SetLoan(a, id, l), l.collateral);
  }

  lemma ServeOneNeverGains(s: Service, a: Airline, cash: real, id: nat)
    requires id < |a.loans|
    requires s == LOAN_SERVICE || s == FINANCING_SERVICE
    ensures NetWorth(ServeOne(s, a, cash, id).0) <= NetWorth(a)
  {
    var l := a.loans[id];
    if Serves(s, l) && Installment(l) > 0.0 {
      if AtLeast(cash, Installment(l)) {
        PaymentNeverGains(l, Installment(l));
        DebitLowersBalance(a, Installment(l), "financing", s.subcategory, false);
        TotalOfUpdate(Unpaid, a.loans, id, AfterPayment(l, Installment(l)));
      } else {
        MissNeverGains(s, a, id);
      }
    }
  }

  lemma {:induction false} ServiceNeverGains(s: Service, a: Airline, cash: real, id: nat)
    requires s == LOAN_SERVICE || s == FINANCING_SERVICE
    ensures NetWorth(ServeFrom(s, a, cash, id)) <= NetWorth(a)
    decreases |a.loans| - id
  {
    if id < |a.loans| {
      ServeOneNeverGains(s, a, cash, id);
      var (a', cash') := ServeOne(s, a, cash, id);
      ServiceNeverGains(s, a', cash', id + 1);
    }
  }

  // Flying earns money; refinancing and bankruptcy write debt off.
  predicate MayGain(c: Command) {
    c.Simulate? || c.RefinanceLoan? || c.Bankruptcy? || c.NegativeDay?
  }

  lemma ExecNeverGains(a: Airline, c: Command, f: Faults)
    requires !MayGain(c)
    ensures NetWorth(Exec(a, c, f).0) <= NetWorth(a)
  {
    match c
    case BuyAircraft(o) => PurchaseNeverGains(a, o, f);
    case LeaseAircraft(o, basePct) => LeaseNeverGains(a, o, basePct, f);
    case SellAircraft(id) => SellNeverGains(a, id, f);
    case EndLease(id) => EndLeaseNeverGains(a, id, f);
    case RepairAircraft(id) => RepairNeverGains(a, id, f);
    case Borrow(principal, termWeeks, loanType, collateral, p) =>
      BorrowNeverGains(a, principal, termWeeks, loanType, collateral, p, f);
    case RepayLoan(id, amount) => RepayNeverGains(a, id, amount, f);
    case Finance(r, p) =>
      if FinanceAllowed(r, p) {
        FinanceNeverGains(a, r.model, DownPayment(r), TermOf(r), p.rateSecured, f);
      }
    case ServeLoans => ServiceNeverGains(LOAN_SERVICE, a, a.account.balance as real, 0);
    case ServeFinancing => ServiceNeverGains(FINANCING_SERVICE, a, a.account.balance as real, 0);
  }

  /** No run of purchases, leases, financings, sales, repairs, terminations, loans, repayments and installments,
      with failures anywhere, ever raises cash plus aircraft at list price less unpaid debt. */
  lemma {:induction false} NoRunCreatesWealth(a: Airline, calls: seq<Call>)
    requires forall call :: call in calls ==> !MayGain(call.command)
    ensures NetWorth(Run(a, calls)) <= NetWorth(a)
    decreases calls
  {
    if calls != [] {
      var shorter, last := calls[..|calls| - 1], calls[|calls| - 1];
      NoRunCreatesWealth(a, shorter);
      ExecNeverGains(Run(a, shorter), last.command, last.faults);
    }
  }

  // ----- counting active debt only

  function ActiveNetWorth(a: Airline): int {
    a.account.balance + FleetValue(a.fleet) - Total(ActiveDebt, a.loans)
  }

  predicate EndedUnpaid(l: Loan) {
    l.status.Defaulted? || l.status.Repossessed?
  }

  // What an ended loan leaves unpaid.
  function LeftOn(l: Loan): int {
    if EndedUnpaid(l) then l.remaining else 0
  }

  // What is left on loans that were still active before, or not yet taken, and have ended unpaid since.
  function LeftSince(before: seq<Loan>, after: seq<Loan>): int
    decreases after
  {
    if after == [] then 0
    else
      var n := |after| - 1;
      LeftSince(before, after[..n])
      + if n < |before| && !before[n].status.Active? then 0 else LeftOn(after[n])
  }

  lemma {:induction false} UnpaidIsActiveOrLeft(loans: seq<Loan>)
    ensures Total(Unpaid, loans) == Total(ActiveDebt, loans) + Total(LeftOn, loans)
    decreases loans
  {
    if loans != [] {
      UnpaidIsActiveOrLeft(loans[..|loans| - 1]);
    }
  }

  // The ended loans of before are among those of after, as they were.
  ghost predicate KeepsEnded(before: seq<Loan>, after: seq<Loan>) {
    forall i :: 0 <= i < |before| && !before[i].status.Active? ==> i < |after| && after[i] == before[i]
  }

  lemma {:induction false} LeftGrowsBy(before: seq<Loan>, after: seq<Loan>)
    requires |before| <= |after| && KeepsEnded(before, after)
    ensures LeftSince(before, after) == Total(LeftOn, after) - Total(LeftOn, before)
    decreases |after|, 1
  {
    if |before| < |after| {
      LeftGrowsBy(before, after[..|after| - 1]);
    } else {
      LeftGrowsByEqual(before, after);
    }
  }

  lemma {:induction false} LeftGrowsByEqual(before: seq<Loan>, after: seq<Loan>)
    requires |before| == |after| && KeepsEnded(before, after)
    ensures LeftSince(before, after) == Total(LeftOn, after) - Total(LeftOn, before)
    decreases |after|, 0
  {
    if after != [] {
      var n := |after| - 1;
      LeftGrowsByEqual(before[..n], after[..n]);
      LeftSinceOfPrefix(before, after[..n]);
    }
  }

  lemma {:induction false} LeftSinceOfPrefix(before: seq<Loan>, after: seq<Loan>)
    requires |after| <= |before|
    ensures LeftSince(before, after) == LeftSince(before[..|after|], after)
    decreases after
  {
    if after != [] {
      var n := |after| - 1;
      LeftSinceOfPrefix(before, after[..n]);
      LeftSinceOfPrefix(before[..n + 1], after[..n]);
      assert before[..n + 1][..n] == before[..n];
    }
  }

  lemma {:induction false} RunOnlyAddsLoans(a: Airline, calls: seq<Call>)
    ensures |a.loans| <= |Run(a, calls).loans|
    decreases calls
  {
    if calls != [] {
      var shorter, last := calls[..|calls| - 1], calls[|calls| - 1];
      RunOnlyAddsLoans(a, shorter);
      ExecEvolves(Run(a, shorter), last.command, last.faults);
    }
  }

  lemma RunKeepsEnded(a: Airline, calls: seq<Call>)
    ensures KeepsEnded(a.loans, Run(a, calls).loans)
  {
    forall i | 0 <= i < |a.loans| && !a.loans[i].status.Active?
      ensures i < |Run(a, calls).loans| && Run(a, calls).loans[i] == a.loans[i]
    {
      SettledLoansNeverChange(a, calls, i);
    }
  }

  /** The same with active debt only: it can rise over a run by no more than what is left on the loans that run
      itself ended unpaid, whatever loans had ended before. */
  lemma ActiveWealthGrowsByDefaults(a: Airline, calls: seq<Call>)
    requires forall call :: call in calls ==> !MayGain(call.command)
    ensures ActiveNetWorth(Run(a, calls)) <= ActiveNetWorth(a) + LeftSince(a.loans, Run(a, calls).loans)
  {
    var after := Run(a, calls).loans;
    NoRunCreatesWealth(a, calls);
    UnpaidIsActiveOrLeft(a.loans);
    UnpaidIsActiveOrLeft(after);
    RunOnlyAddsLoans(a, calls);
    RunKeepsEnded(a, calls);
    LeftGrowsBy(a.loans, after);
  }

  // No loan that was active before, or taken since, has ended unpaid.
  ghost predicate NothingEnded(before: seq<Loan>, after: seq<Loan>) {
    forall i :: 0 <= i < |after| && (i < |before| ==> before[i].status.Active?) ==> !EndedUnpaid(after[i])
  }

  lemma {:induction false} NothingIsLeft(before: seq<Loan>, after: seq<Loan>)
    requires NothingEnded(before, after)
    ensures LeftSince(before, after) == 0
    decreases after
  {
    if after != [] {
      NothingIsLeft(before, after[..|after| - 1]);
    }
  }

  /** So a run that ends no loan unpaid creates no wealth, counting active debt only. */
  lemma NoRunCreatesActiveWealth(a: Airline, calls: seq<Call>)
    requires forall call :: call in calls ==> !MayGain(call.command)
    requires NothingEnded(a.loans, Run(a, calls).loans)
    ensures ActiveNetWorth(Run(a, calls)) <= ActiveNetWorth(a)
  {
    ActiveWealthGrowsByDefaults(a, calls);
    NothingIsLeft(a.loans, Run(a, calls).loans);
  }

  /** Refinancing writes off exactly the difference between the old debt and the rounded new one. */
  lemma RefinanceForgives(a: Airline, id: nat, p: Policy, f: Faults)
    requires id < |a.loans| && Refinance(a, id, p, f).1.Accepted?
    ensures var a' := Refinance(a, id, p, f).0;
            NetWorth(a') == NetWorth(a) + a.loans[id].remaining - a'.loans[id].remaining
  {
    var l := Refinanced(a.loans[id], OfferedRate(a.loans[id], p));
    TotalOfUpdate(Unpaid, a.loans, id, l);
  }
}
