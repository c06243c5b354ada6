/** Exactly which commands are granted, and exactly what a granted one costs the player. */
module CommandProofs {
  import opened Sequences
  import opened Money
  import opened Airline
  import opened Fleet
  import opened Bank
  import opened DayBoundary
  import opened AirlineRuns
  import opened LoanProofs
  import opened WealthProofs

  predicate Affords(a: Airline, amount: real) {
    AtLeast(a.account.balance as real, amount)
  }

  predicate Idle(a: Airline, id: nat, acquisition: Acquisition) {
    Owns(a, id) && a.fleet[id].acquisition == acquisition && id !in a.onRoute
  }

  // What a player has to meet for a command to be granted.
  predicate Entitled(a: Airline, c: Command) {
    match c
    case BuyAircraft(o) => OrderAllowed(o) && Affords(a, o.model.price as real)
    case LeaseAircraft(o, basePct) =>
      OrderAllowed(o) && Affords(a, LeaseDeposit(o.model.price, o.model.leasePrice, basePct))
    case SellAircraft(id) => Idle(a, id, Bought)
    case EndLease(id) => Idle(a, id, Leased) && Affords(a, LeaseExitFee(a.fleet[id].model.leasePrice))
    case RepairAircraft(id) =>
      Owns(a, id)
      && (a.fleet[id].condition >= 100.0 || Affords(a, RepairCost(a.fleet[id].condition, a.fleet[id].model.price)))
    case Borrow(principal, _, loanType, collateral, p) =>
      !collateral && (loanType.Unsecured? || loanType.CreditLine?) && ActiveLoans(a) < p.maxActive
      && Round(principal) > 0 && principal >= p.minLoan && principal <= BorrowingLimit(loanType, p)
    case RepayLoan(id, amount) =>
      id < |a.loans| && a.loans[id].status.Active? && Owed(a.loans[id], amount) > 0.0
          && Affords(a, Owed(a.loans[id], amount))
    case RefinanceLoan(id, p) =>
      id < |a.loans| && a.loans[id].status.Active? && a.loans[id].monthly.Some?
          && OfferedRate(a.loans[id], p) < a.loans[id].rate
    case Finance(r, p) => FinanceAllowed(r, p) && Affords(a, DownPayment(r) as real) && DownPayment(r) < r.model.price
    case _ => true
  }

  lemma GuardAgrees(a: Airline, amount: real, category: string, subcategory: string)
    requires 0.0 <= amount && Affords(a, amount)
    ensures DebitTx(a, amount, category, subcategory, false).Some?
  {
    RoundWhole(a.account.balance);
  }

  lemma BuyingIsGrantedIff(a: Airline, c: Command)
    requires c.BuyAircraft? || c.LeaseAircraft?
    ensures Exec(a, c, NO_FAULTS).1.Accepted? <==> Entitled(a, c)
  {
    var m := c.order.model;
    if c.BuyAircraft? && Affords(a, m.price as real) {
      GuardAgrees(a, m.price as real, "investing", "aircraft_purchase");
    }
    if c.LeaseAircraft? {
      FeesAreNotNegative(100.0, m.price, m.leasePrice, c.basePct);
      if Affords(a, LeaseDeposit(m.price, m.leasePrice, c.basePct)) {
        GuardAgrees(a, LeaseDeposit(m.price, m.leasePrice, c.basePct), "investing", "aircraft_lease_deposit");
      }
    }
  }

  lemma SellingIsGrantedIff(a: Airline, id: nat)
    ensures Exec(a, SellAircraft(id), NO_FAULTS).1.Accepted? <==> Entitled(a, SellAircraft(id))
  {
    if Owns(a, id) {
      SaleStaysInBounds(a.fleet[id].condition, a.fleet[id].model.price, a.fleet[id].acquired, a.gameTime);
      RoundWhole(0);
      RoundKeepsOrder(0.0, SaleValue(a.fleet[id].condition, a.fleet[id].model.price, a.fleet[id].acquired, a.gameTime));
    }
  }

  lemma EndingALeaseIsGrantedIff(a: Airline, id: nat)
    ensures Exec(a, EndLease(id), NO_FAULTS).1.Accepted? <==> Entitled(a, EndLease(id))
  {
    if Owns(a, id) {
      var fee := LeaseExitFee(a.fleet[id].model.leasePrice);
      FeesAreNotNegative(100.0, 0, a.fleet[id].model.leasePrice, 0.0);
      if Affords(a, fee) {
        GuardAgrees(a, fee, "opex", "lease_termination");
      }
    }
  }

  lemma RepairIsGrantedIff(a: Airline, id: nat)
    ensures Exec(a, RepairAircraft(id), NO_FAULTS).1.Accepted? <==> Entitled(a, RepairAircraft(id))
  {
    if Owns(a, id) && a.fleet[id].condition < 100.0 {
      var cost := RepairCost(a.fleet[id].condition, a.fleet[id].model.price);
      FeesAreNotNegative(a.fleet[id].condition, a.fleet[id].model.price, 0, 0.0);
      if Affords(a, cost) {
        GuardAgrees(a, cost, "cogs", "maintenance");
      }
    }
  }

  lemma BorrowingIsGrantedIff(a: Airline, c: Command)
    requires c.Borrow?
    ensures Exec(a, c, NO_FAULTS).1.Accepted? <==> Entitled(a, c)
  {
    RoundWhole(0);
    if c.principal <= 0.0 {
      RoundKeepsOrder(c.principal, 0.0);
    }
  }

  lemma RepayingIsGrantedIff(a: Airline, id: nat, amount: Option<real>)
    ensures Exec(a, RepayLoan(id, amount), NO_FAULTS).1.Accepted? <==> Entitled(a, RepayLoan(id, amount))
  {
    if id < |a.loans| && Owed(a.loans[id], amount) > 0.0 && Affords(a, Owed(a.loans[id], amount)) {
      GuardAgrees(a, Owed(a.loans[id], amount), "financing", "loan_repayment");
    }
  }

  lemma FinancingIsGrantedIff(a: Airline, m: Model, down: int, term: int, rate: Rate)
    requires term > 0 && 0 <= down
    ensures FinanceWith(a, m, down, term, rate, NO_FAULTS).1.Accepted? <==> Affords(a, down as real) && down < m.price
  {
    if Affords(a, down as real) {
      GuardAgrees(a, down as real, "investing", "aircraft_purchase_deposit");
    }
  }

  lemma DownPaymentIsNotNegative(r: FinanceRequest)
    requires 0.0 <= DownPctOf(r)
    ensures 0 <= DownPayment(r)
  {
    var price, pct := r.model.price as real, DownPctOf(r);
    assert 0.0 <= price * pct;
  }

  /** When no statement fails a command is granted exactly to a player who meets its conditions: once the check
      in front of the transaction has passed, the guarded debit inside never refuses. */
  lemma GrantedIff(a: Airline, c: Command)
    requires !c.Simulate?
    ensures Exec(a, c, NO_FAULTS).1.Accepted? <==> Entitled(a, c)
  {
    match c
    case BuyAircraft(_) => BuyingIsGrantedIff(a, c);
    case LeaseAircraft(_, _) => BuyingIsGrantedIff(a, c);
    case SellAircraft(id) => SellingIsGrantedIff(a, id);
    case EndLease(id) => EndingALeaseIsGrantedIff(a, id);
    case RepairAircraft(id) => RepairIsGrantedIff(a, id);
    case Borrow(_, _, _, _, _) => BorrowingIsGrantedIff(a, c);
    case RepayLoan(id, amount) => RepayingIsGrantedIff(a, id, amount);
    case RefinanceLoan(_, _) =>
    case Finance(r, p) =>
      if FinanceAllowed(r, p) {
        DownPaymentIsNotNegative(r);
        FinancingIsGrantedIff(a, r.model, DownPayment(r), TermOf(r), p.rateSecured);
      }
    case _ =>
  }

  // ----- what a granted command costs

  // Cents of net worth: list value lost, fees, deposits and what rounding adds; negative when debt is written off.
  function Cost(a: Airline, c: Command): int
    requires Entitled(a, c)
  {
    match c
    case LeaseAircraft(o, basePct) => Round(LeaseDeposit(o.model.price, o.model.leasePrice, basePct))
    case SellAircraft(id) =>
      var craft := a.fleet[id];
      craft.model.price - Round(SaleValue(craft.condition, craft.model.price, craft.acquired, a.gameTime))
    case EndLease(id) => Round(LeaseExitFee(a.fleet[id].model.leasePrice))
    case RepairAircraft(id) => Round(RepairCost(a.fleet[id].condition, a.fleet[id].model.price))
    case RepayLoan(id, amount) =>
      var payment := Owed(a.loans[id], amount);
      if payment == payment.Floor as real + 0.5 && a.loans[id].remaining as real - payment > HALF_CENT then 1 else 0
    case RefinanceLoan(id, p) =>
      Round(NewTotal(a.loans[id].remaining, a.loans[id].rate, OfferedRate(a.loans[id], p))) - a.loans[id].remaining
    case _ => 0
  }

  // The commands priced below; a financing is priced by itself.
  predicate Priced(c: Command) {
    c.BuyAircraft? || c.LeaseAircraft? || c.SellAircraft? || c.EndLease? || c.RepairAircraft? || c.Borrow?
        || c.RepayLoan?
    || c.RefinanceLoan?
  }

  lemma BuyingCosts(a: Airline, c: Command, f: Faults)
    requires (c.BuyAircraft? || c.LeaseAircraft?) && Exec(a, c, f).1.Accepted? && Entitled(a, c)
    ensures NetWorth(Exec(a, c, f).0) == NetWorth(a) - Cost(a, c)
  {
    var m := c.order.model;
    RoundWhole(m.price);
    if c.BuyAircraft? {
      DebitLowersBalance(a, m.price as real, "investing", "aircraft_purchase", f.ledger);
      TotalOfAppend(ListValue, a.fleet, Delivered(m, Bought));
    } else {
      DebitLowersBalance(a, LeaseDeposit(m.price, m.leasePrice, c.basePct), "investing", "aircraft_lease_deposit",
                         f.ledger);
      TotalOfAppend(ListValue, a.fleet, Delivered(m, Leased));
    }
  }

  lemma SellingCosts(a: Airline, id: nat, f: Faults)
    requires Exec(a, SellAircraft(id), f).1.Accepted? && Entitled(a, SellAircraft(id))
    ensures NetWorth(Exec(a, SellAircraft(id), f).0) == NetWorth(a) - Cost(a, SellAircraft(id))
  {
    var craft := a.fleet[id];
    CreditRaisesBalance(a, SaleValue(craft.condition, craft.model.price, craft.acquired, a.gameTime), "investing",
                        "aircraft_sale", f.ledger);
    TotalOfUpdate(ListValue, a.fleet, id, craft.(present := false));
  }

  lemma EndingALeaseCosts(a: Airline, id: nat, f: Faults)
    requires Exec(a, EndLease(id), f).1.Accepted? && Entitled(a, EndLease(id))
    ensures NetWorth(Exec(a, EndLease(id), f).0) == NetWorth(a) - Cost(a, EndLease(id))
  {
    DebitLowersBalance(a, LeaseExitFee(a.fleet[id].model.leasePrice), "opex", "lease_termination", f.ledger);
    TotalOfUpdate(ListValue, a.fleet, id, a.fleet[id].(present := false));
  }

  lemma RepairCosts(a: Airline, id: nat, f: Faults)
    requires Exec(a, RepairAircraft(id), f).1.Accepted? && Entitled(a, RepairAircraft(id))
    ensures NetWorth(Exec(a, RepairAircraft(id), f).0) == NetWorth(a) - Cost(a, RepairAircraft(id))
  {
    DebitLowersBalance(a, RepairCost(a.fleet[id].condition, a.fleet[id].model.price), "cogs", "maintenance", f.ledger);
    TotalOfUpdate(ListValue, a.fleet, id, a.fleet[id].(condition := 100.0, status := InService));
    RoundWhole(0);
  }

  lemma BorrowingCostsNothing(a: Airline, c: Command, f: Faults)
    requires c.Borrow? && Exec(a, c, f).1.Accepted?
    ensures NetWorth(Exec(a, c, f).0) == NetWorth(a)
  {
    LentThenPaid(a, NewLoan(c.principal, if c.termWeeks <= 0 then 52 else c.termWeeks, c.loanType,
                            BorrowingRate(c.loanType, c.policy)),
                 c.principal, f);
  }

  // Both sides of a payment that ends in half a cent round up; otherwise nothing is lost.
  lemma HalvesRoundTwice(remaining: int, payment: real)
    requires 0.0 < payment && HALF_CENT < remaining as real - payment
    ensures Round(payment) + Round(remaining as real - payment)
            == remaining + if payment == payment.Floor as real + 0.5 then 1 else 0
  {
    var whole := payment.Floor;
    if payment < whole as real + 0.5 {
      RoundTo(payment, whole);
      RoundTo(remaining as real - payment, remaining - whole);
    } else if payment > whole as real + 0.5 {
      RoundTo(payment, whole + 1);
      RoundTo(remaining as real - payment, remaining - whole - 1);
    } else {
      HalfGoesUp(payment, whole);
      HalfGoesUp(remaining as real - payment, remaining - whole - 1);
    }
  }

  lemma HalfGoesUp(x: real, k: int)
    requires k >= 0 && x == k as real + 0.5
    ensures Round(x) == k + 1
  {
    assert x + 0.5 == (k + 1) as real;
  }

  lemma PaymentCosts(l: Loan, payment: real)
    requires l.status.Active? && 0.0 < payment <= l.remaining as real
    ensures Round(payment) - (l.remaining - Unpaid(AfterPayment(l, payment)))
            == if payment == payment.Floor as real + 0.5 && l.remaining as real - payment > HALF_CENT then 1 else 0
  {
    if l.remaining as real - payment > HALF_CENT {
      HalvesRoundTwice(l.remaining, payment);
    } else {
      RoundWhole(l.remaining);
      RoundKeepsOrder(payment, l.remaining as real);
      RoundKeepsOrder(l.remaining as real - 0.5, payment);
    }
  }

  lemma RepayingCosts(a: Airline, id: nat, amount: Option<real>, f: Faults)
    requires Exec(a, RepayLoan(id, amount), f).1.Accepted? && Entitled(a, RepayLoan(id, amount))
    ensures NetWorth(Exec(a, RepayLoan(id, amount), f).0) == NetWorth(a) - Cost(a, RepayLoan(id, amount))
  {
    var payment := Owed(a.loans[id], amount);
    var loan := AfterPayment(a.loans[id], payment);
    PaymentCosts(a.loans[id], payment);
    DebitLowersBalance(a, payment, "financing", "loan_repayment", f.ledger);
    TotalOfUpdate(Unpaid, a.loans, id, loan);
    ReleaseKeepsFleetValue(SetLoan(DebitTx(a, payment, "financing", "loan_repayment", f.ledger).value, id, loan), loan);
  }

  lemma RefinancingCosts(a: Airline, id: nat, p: Policy, f: Faults)
    requires Exec(a, RefinanceLoan(id, p), f).1.Accepted? && Entitled(a, RefinanceLoan(id, p))
    ensures NetWorth(Exec(a, RefinanceLoan(id, p), f).0) == NetWorth(a) - Cost(a, RefinanceLoan(id, p))
  {
    RefinanceForgives(a, id, p, f);
  }

  lemma CreditCosts(a: Airline, account: Account, craft: Aircraft, l: Loan)
    ensures NetWorth(a.(account := account, fleet := a.fleet + [craft], loans := a.loans + [l]))
            == NetWorth(a) + account.balance - a.account.balance + ListValue(craft) - Unpaid(l)
  {
    TotalOfAppend(ListValue, a.fleet, craft);
    TotalOfAppend(Unpaid, a.loans, l);
  }

  function Interest(principal: int, rate: Rate): int {
    Round(principal as real * (1.0 + rate)) - principal
  }

  lemma FinancedLoanOwes(principal: int, rate: Rate, term: int, aircraft: nat)
    requires term > 0
    ensures Unpaid(FinancingLoan(principal, rate, term, aircraft)) == principal + Interest(principal, rate)
  {
  }

  lemma FinancedWork(a: Airline, m: Model, down: int, term: int, rate: Rate, f: Faults, loan: Loan)
    requires term > 0 && FinanceBody(a, m, down, term, rate, f).verdict.Commit?
    requires loan == FinancingLoan(m.price - down, rate, term, |a.fleet|)
    ensures var work := FinanceBody(a, m, down, term, rate, f).work;
            && work == a.(account := work.account, fleet := a.fleet + [Delivered(m, Financed)],
                          loans := a.loans + [loan])
            && work.account.balance == a.account.balance - down
  {
    RoundWhole(down);
    DebitLowersBalance(a, down as real, "investing", "aircraft_purchase_deposit", f.ledger);
  }

  lemma FinancingBodyCosts(a: Airline, m: Model, down: int, term: int, rate: Rate, f: Faults)
    requires term > 0 && FinanceBody(a, m, down, term, rate, f).verdict.Commit?
    ensures NetWorth(FinanceBody(a, m, down, term, rate, f).work) == NetWorth(a) - Interest(m.price - down, rate)
  {
    var loan := FinancingLoan(m.price - down, rate, term, |a.fleet|);
    FinancedLoanOwes(m.price - down, rate, term, |a.fleet|);
    FinancedWork(a, m, down, term, rate, f, loan);
    CreditCosts(a, FinanceBody(a, m, down, term, rate, f).work.account, Delivered(m, Financed), loan);
  }

  /** Financing an aircraft takes exactly the rounded interest off net worth, whatever is paid down. */
  lemma FinancingCosts(a: Airline, m: Model, down: int, term: int, rate: Rate, f: Faults)
    requires term > 0 && FinanceWith(a, m, down, term, rate, f).1.Accepted?
    ensures NetWorth(FinanceWith(a, m, down, term, rate, f).0) == NetWorth(a) - Interest(m.price - down, rate)
  {
    assert FinanceBody(a, m, down, term, rate, f).verdict.Commit?;
    FinancingBodyCosts(a, m, down, term, rate, f);
  }

  /** To the cent, what a granted command takes off net worth: nothing for a purchase or a loan, the deposit of a
      lease, the list price a sale does not fetch, the fee, the repair. A repayment costs a cent exactly when it
      ends in half a cent and leaves more than that owing, and nothing otherwise; a refinancing gives back what
      it writes off. */
  lemma GrantedCommandsCost(a: Airline, c: Command, f: Faults)
    requires Priced(c) && Exec(a, c, f).1.Accepted? && Entitled(a, c)
    ensures NetWorth(Exec(a, c, f).0) == NetWorth(a) - Cost(a, c)
  {
    match c
    case BuyAircraft(_) => BuyingCosts(a, c, f);
    case LeaseAircraft(_, _) => BuyingCosts(a, c, f);
    case SellAircraft(id) => SellingCosts(a, id, f);
    case EndLease(id) => EndingALeaseCosts(a, id, f);
    case RepairAircraft(id) => RepairCosts(a, id, f);
    case Borrow(_, _, _, _, _) => BorrowingCostsNothing(a, c, f);
    case RepayLoan(id, amount) => RepayingCosts(a, id, amount, f);
    case RefinanceLoan(id, p) => RefinancingCosts(a, id, p, f);
  }

  // ----- where the check and the guard part

  /** A repair worth less than half a cent would be let through by the ledger, but the check in front of it refuses
      it exactly while the account is overdrawn. */
  lemma FreeRepairIsRefusedIffOverdrawn(a: Airline, id: nat)
    requires Owns(a, id) && a.fleet[id].condition < 100.0
    requires Round(RepairCost(a.fleet[id].condition, a.fleet[id].model.price)) == 0
    ensures DebitTx(a, RepairCost(a.fleet[id].condition, a.fleet[id].model.price), "cogs", "maintenance", false)
            == Some(a)
    ensures Repair(a, id, NO_FAULTS).1.Refused? <==> a.account.balance < 0
  {
    RoundWhole(a.account.balance);
  }

  /** So with a repayment, which names its own amount: of less than half a cent it is refused exactly on an overdrawn
      account, and otherwise leaves the account as it was. */
  lemma FreeRepaymentIsRefusedIffOverdrawn(a: Airline, id: nat, amount: real)
    requires id < |a.loans| && a.loans[id].status.Active? && a.loans[id].remaining > 0
    requires 0.0 < amount < 0.5
    ensures DebitTx(a, Owed(a.loans[id], Some(amount)), "financing", "loan_repayment", false) == Some(a)
    ensures Repay(a, id, Some(amount), NO_FAULTS).1.Refused? <==> a.account.balance < 0
    ensures Repay(a, id, Some(amount), NO_FAULTS).0 == a
  {
    RoundTo(amount, 0);
    RoundWhole(a.account.balance);
    var l := a.loans[id];
    RoundTo(l.remaining as real - amount, l.remaining);
    assert a.loans[id := l] == a.loans;
  }
}
