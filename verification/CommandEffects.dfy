/**
 What each granted command leaves of the player's rows, row by row, whichever statements could have failed; and what the
 commands undo of one another.
 */
module CommandEffects {
  import opened Sequences
  import opened Money
  import opened Airline
  import opened Fleet
  import opened Bank
  import opened AirlineRuns
  import opened CommandProofs
  import opened LoanProofs

  // The account has moved by so many cents, and the ledger has the row to show for it.
  predicate Entered(before: Account, after: Account, kind: Kind, cents: int, category: string, subcategory: string) {
    var signed := if kind == Debit then -cents else cents;
    && after.opening == before.opening && after.balance == before.balance + signed
    && after.ledger
       == before.ledger + (if cents == 0 then [] else [Row(kind, category, subcategory, signed, after.balance)])
  }

  // Nothing but the account and the one aircraft may have changed.
  predicate OnlyFleet(a: Airline, a': Airline, fleet: seq<Aircraft>) {
    a' == Airline(a'.account, a.loans, fleet, a.onRoute, a.gameTime, a.negativeDays, a.bankrupt)
  }

  lemma Enters(a: Airline, amount: real, kind: Kind, category: string, subcategory: string, fails: bool)
    requires 0.0 <= amount && ApplyTx(a, amount, kind, false, category, subcategory, fails).Some?
    ensures var a' := ApplyTx(a, amount, kind, false, category, subcategory, fails).value;
            OnlyFleet(a, a', a.fleet) && Entered(a.account, a'.account, kind, Round(amount), category, subcategory)
  {
    RoundWhole(0);
    RoundKeepsOrder(0.0, amount);
  }

  // ----- aircraft

  /** A purchase or a lease adds one new aircraft of the model ordered, whole and in service, and takes its price or its
      deposit. */
  lemma BuyingDelivers(a: Airline, c: Command, f: Faults)
    requires (c.BuyAircraft? || c.LeaseAircraft?) && Exec(a, c, f).1.Accepted?
    ensures var a', m := Exec(a, c, f).0, c.order.model;
            if c.BuyAircraft?
            then OnlyFleet(a, a', a.fleet + [Aircraft(m, Bought, 100.0, InService, None, true)])
                 && Entered(a.account, a'.account, Debit, m.price, "investing", "aircraft_purchase")
            else OnlyFleet(a, a', a.fleet + [Aircraft(m, Leased, 100.0, InService, None, true)])
                 && Entered(a.account, a'.account, Debit, Round(LeaseDeposit(m.price, m.leasePrice, c.basePct)),
                            "investing", "aircraft_lease_deposit")
  {
    var m := c.order.model;
    if c.BuyAircraft? {
      RoundWhole(m.price);
      Enters(a, m.price as real, Debit, "investing", "aircraft_purchase", f.ledger);
    } else {
      FeesAreNotNegative(100.0, m.price, m.leasePrice, c.basePct);
      Enters(a, LeaseDeposit(m.price, m.leasePrice, c.basePct), Debit, "investing", "aircraft_lease_deposit", f.ledger);
    }
  }

  predicate Gone(before: Aircraft, after: Aircraft) {
    before.present && !after.present && after == before.(present := false)
  }

  /** A sale takes the player's own aircraft away and brings what it is worth; the end of a lease takes a leased one and
      costs its fee. Neither touches an aircraft on a route. */
  lemma LeavingTakesTheAircraft(a: Airline, c: Command, f: Faults)
    requires (c.SellAircraft? || c.EndLease?) && Exec(a, c, f).1.Accepted?
    ensures c.id < |a.fleet| && c.id !in a.onRoute
    ensures var a', craft := Exec(a, c, f).0, a.fleet[c.id];
            && |a'.fleet| == |a.fleet| && OnlyFleet(a, a', a.fleet[c.id := a'.fleet[c.id]])
            && Gone(craft, a'.fleet[c.id])
            && if c.SellAircraft?
               then craft.acquisition.Bought?
                    && Entered(a.account, a'.account, Credit,
                               Round(SaleValue(craft.condition, craft.model.price, craft.acquired, a.gameTime)),
                               "investing", "aircraft_sale")
               else craft.acquisition.Leased?
                    && Entered(a.account, a'.account, Debit, Round(LeaseExitFee(craft.model.leasePrice)), "opex",
                               "lease_termination")
  {
    var craft := a.fleet[c.id];
    if c.SellAircraft? {
      SaleStaysInBounds(craft.condition, craft.model.price, craft.acquired, a.gameTime);
      Enters(a, SaleValue(craft.condition, craft.model.price, craft.acquired, a.gameTime), Credit, "investing",
             "aircraft_sale", f.ledger);
    } else {
      FeesAreNotNegative(100.0, 0, craft.model.leasePrice, 0.0);
      Enters(a, LeaseExitFee(craft.model.leasePrice), Debit, "opex", "lease_termination", f.ledger);
    }
  }

  /** A repair leaves a damaged aircraft whole and in service, the same aircraft otherwise, and takes what the damage
      costs; it changes nothing for one that is whole, and nothing else for any. */
  lemma RepairMakesWhole(a: Airline, id: nat, f: Faults)
    requires Exec(a, RepairAircraft(id), f).1.Accepted?
    ensures id < |a.fleet| && a.fleet[id].present
    ensures var a', craft := Exec(a, RepairAircraft(id), f).0, a.fleet[id];
            if craft.condition >= 100.0 then a' == a
            else OnlyFleet(a, a', a.fleet[id := Aircraft(craft.model, craft.acquisition, 100.0, InService,
                                                         craft.acquired, true)])
                 && Entered(a.account, a'.account, Debit, Round(RepairCost(craft.condition, craft.model.price)), "cogs",
                            "maintenance")
  {
    var craft := a.fleet[id];
    if craft.condition < 100.0 {
      FeesAreNotNegative(craft.condition, craft.model.price, 0, 0.0);
      Enters(a, RepairCost(craft.condition, craft.model.price), Debit, "cogs", "maintenance", f.ledger);
    }
  }

  // ----- loans

  // Within half a cent for each of them, so many installments come to the amount.
  predicate SpreadsOver(installment: int, periods: int, amount: real) {
    -0.5 * periods as real <= installment as real * periods as real - amount <= 0.5 * periods as real
  }

  lemma Spreads(amount: real, periods: int, installment: int)
    requires periods > 0 && installment == Round(amount / periods as real)
    ensures SpreadsOver(installment, periods, amount)
  {
    var each, n := amount / periods as real, periods as real;
    RoundIsNearest(each);
    assert each * n == amount;
    OffBy(installment as real, each, n, amount);
  }

  lemma OffBy(x: real, each: real, n: real, amount: real)
    requires 0.0 < n && each * n == amount && -0.5 <= x - each <= 0.5
    ensures -0.5 * n <= x * n - amount <= 0.5 * n
  {
    var off := x - each;
    NoSign(0.5 - off, n);
    NoSign(off + 0.5, n);
    assert off * n == x * n - amount;
  }

  lemma NoSign(x: real, n: real)
    requires 0.0 <= x && 0.0 <= n
    ensures 0.0 <= x * n
  {
  }

  // Of the loan's type: tier policy, and two points more on a credit line.
  predicate RateOf(rate: real, loanType: LoanType, p: Policy) {
    if loanType.CreditLine? then rate == p.rateUnsecured + 0.02 else rate == p.rateUnsecured
  }

  // Both installments spread principal and interest over the weeks, the monthly one 4.33 weeks at a time.
  predicate Installments(l: Loan, principal: real, weeks: int) {
    var total := principal * (1.0 + l.rate);
    && SpreadsOver(l.weekly, weeks, total)
    && l.monthly.Some? && SpreadsOver(l.monthly.value, weeks, total * 4.33)
  }

  function Weeks(termWeeks: int): int {
    if termWeeks <= 0 then 52 else termWeeks
  }

  lemma InstallmentsOf(principal: real, weeks: int, loanType: LoanType, rate: Rate)
    requires weeks > 0
    ensures Installments(NewLoan(principal, weeks, loanType, rate), principal, weeks)
  {
    SpreadsLoan(NewLoan(principal, weeks, loanType, rate), principal, WithInterest(principal, rate), weeks);
  }

  lemma SpreadsLoan(l: Loan, principal: real, total: real, weeks: int)
    requires weeks > 0 && total == WithInterest(principal, l.rate) && l.weekly == Round(total / weeks as real)
    requires l.monthly == Some(Round(total / weeks as real * WEEKS_PER_MONTH))
    ensures Installments(l, principal, weeks)
  {
    Spreads(total, weeks, l.weekly);
    Regroup(total, weeks as real);
    Spreads(total * 4.33, weeks, l.monthly.value);
  }

  lemma Regroup(total: real, weeks: real)
    requires weeks > 0.0
    ensures total / weeks * 4.33 == total * 4.33 / weeks
  {
  }

  /** A loan is only granted without collateral, within the tier's limit (half of it for a credit line) and below the
      number of loans it allows. It adds one active loan that owes the principal and brings the same. */
  lemma BorrowingAddsTheLoan(a: Airline, c: Command, f: Faults)
    requires c.Borrow? && Exec(a, c, f).1.Accepted?
    ensures !c.collateral && (c.loanType.Unsecured? || c.loanType.CreditLine?) && ActiveLoans(a) < c.policy.maxActive
    ensures c.policy.minLoan <= c.principal
    ensures (if c.loanType.CreditLine? then c.principal * 2.0 else c.principal) <= c.policy.maxUnsecured
    ensures var a', l := Exec(a, c, f).0, Exec(a, c, f).0.loans[|a.loans|];
            && a' == Airline(a'.account, a.loans + [l], a.fleet, a.onRoute, a.gameTime, a.negativeDays, a.bankrupt)
            && l.loanType == c.loanType && l.status.Active? && l.missed == 0 && l.collateral.None?
            && l.principal == l.remaining == Round(c.principal) && RateOf(l.rate, c.loanType, c.policy)
            && Installments(l, c.principal, Weeks(c.termWeeks))
            && Entered(a.account, a'.account, Credit, Round(c.principal), "financing", "loan_disbursement")
  {
    var l := NewLoan(c.principal, Weeks(c.termWeeks), c.loanType, BorrowingRate(c.loanType, c.policy));
    Enters(a.(loans := a.loans + [l]), c.principal, Credit, "financing", "loan_disbursement", f.ledger);
    InstallmentsOf(c.principal, Weeks(c.termWeeks), c.loanType, BorrowingRate(c.loanType, c.policy));
  }

  // What a repayment may name: no more than is owed.
  function Asked(l: Loan, amount: Option<real>): real {
    if amount.Some? && amount.value < l.remaining as real then amount.value else l.remaining as real
  }

  predicate SameButStatusAndDebt(l: Loan, l': Loan) {
    l' == Loan(l.loanType, l.principal, l.rate, l'.remaining, l.weekly, l.monthly, l'.status, l.missed, l.collateral)
  }

  // Nothing owed once the payment is all of it, the rest to the cent otherwise; settled at half a cent.
  predicate PaidDown(l: Loan, l': Loan, payment: real) {
    && SameButStatusAndDebt(l, l')
    && l'.remaining == (if payment >= l.remaining as real then 0 else Round(l.remaining as real - payment))
    && (if l.remaining as real - payment <= 0.5 then l'.status.PaidOff? else l'.status.Active?)
  }

  /** A repayment takes from the account what it takes off an active loan; settling a financing makes its aircraft the
      player's own. */
  lemma RepayingPaysDown(a: Airline, id: nat, amount: Option<real>, f: Faults)
    requires Exec(a, RepayLoan(id, amount), f).1.Accepted?
    ensures id < |a.loans| && a.loans[id].status.Active? && 0.0 < Asked(a.loans[id], amount)
    ensures var a', l := Exec(a, RepayLoan(id, amount), f).0, a.loans[id];
            && |a'.loans| == |a.loans| && |a'.fleet| == |a.fleet|
            && a' == Airline(a'.account, a.loans[id := a'.loans[id]], a'.fleet, a.onRoute, a.gameTime, a.negativeDays,
                             a.bankrupt)
            && PaidDown(l, a'.loans[id], Asked(l, amount))
            && Entered(a.account, a'.account, Debit, Round(Asked(l, amount)), "financing", "loan_repayment")
            && forall i :: 0 <= i < |a.fleet| ==>
                 var craft := a.fleet[i];
                 a'.fleet[i] == if a'.loans[id].status.PaidOff? && l.loanType.AircraftFinancing?
                                   && l.collateral == Some(i) && craft.present && craft.acquisition.Financed?
                                then craft.(acquisition := Bought) else craft
  {
    var payment := Asked(a.loans[id], amount);
    Enters(a, payment, Debit, "financing", "loan_repayment", f.ledger);
    RoundWhole(0);
  }

  /** A refinancing changes the debt in the ratio of the two rates and spreads it over the periods; it moves no cash. */
  lemma RefinancingReprices(a: Airline, id: nat, p: Policy, f: Faults)
    requires Exec(a, RefinanceLoan(id, p), f).1.Accepted?
    ensures id < |a.loans| && a.loans[id].status.Active? && a.loans[id].monthly.Some?
    ensures var a', l := Exec(a, RefinanceLoan(id, p), f).0, a.loans[id];
            var rate := if l.loanType.Unsecured? || l.loanType.CreditLine? then p.rateUnsecured else p.rateSecured;
            && a' == a.(loans := a.loans[id := a'.loans[id]]) && rate < l.rate && a'.loans[id].rate == rate
            && Repriced(l, a'.loans[id])
  {
    var l, l' := a.loans[id], Refinanced(a.loans[id], OfferedRate(a.loans[id], p));
    var total := NewTotal(l.remaining, l.rate, l'.rate);
    NewTotalIsInRatio(l.remaining, l.rate, l'.rate);
    MonthsOf(l, l'.rate);
    assert InRatio(total, l.remaining, l.rate, l'.rate);
  }

  predicate InRatio(total: real, remaining: int, rate: real, newRate: real) {
    total * (1.0 + rate) == remaining as real * (1.0 + newRate)
  }

  predicate Months(monthly: real, total: real, periods: real) {
    monthly * periods == total
  }

  ghost predicate Repriced(l: Loan, l': Loan)
    requires l.monthly.Some?
  {
    && l' == Loan(l.loanType, l.principal, l'.rate, l'.remaining, l'.weekly, l'.monthly, l.status, l.missed,
                  l.collateral)
    && exists total: real, monthly: real ::
         InRatio(total, l.remaining, l.rate, l'.rate) && l'.remaining == Round(total)
         && Months(monthly, total, Periods(l.remaining, l.monthly.value, l.weekly))
         && l'.monthly == Some(Round(monthly)) && WeekOf(l'.weekly, monthly)
  }

  // To the cent, a 4.33rd of the month.
  predicate WeekOf(weekly: int, monthly: real) {
    -2.165 <= weekly as real * 4.33 - monthly <= 2.165
  }

  lemma NewTotalIsInRatio(remaining: int, rate: Rate, newRate: Rate)
    ensures InRatio(NewTotal(remaining, rate, newRate), remaining, rate, newRate)
  {
    var part := remaining as real / (1.0 + rate);
    assert part * (1.0 + rate) == remaining as real;
    assert part * (1.0 + newRate) * (1.0 + rate) == part * (1.0 + rate) * (1.0 + newRate);
  }

  lemma MonthsOf(l: Loan, newRate: Rate)
    requires l.monthly.Some?
    ensures var total, periods, l' := NewTotal(l.remaining, l.rate, newRate),
                                      Periods(l.remaining, l.monthly.value, l.weekly), Refinanced(l, newRate);
            periods > 0.0 && Months(total / periods, total, periods) && l'.monthly == Some(Round(total / periods))
            && WeekOf(l'.weekly, total / periods)
  {
    var total, periods := NewTotal(l.remaining, l.rate, newRate), Periods(l.remaining, l.monthly.value, l.weekly);
    assert total / periods * periods == total;
    WeekIs(total / periods);
  }

  lemma WeekIs(monthly: real)
    ensures WeekOf(Round(monthly / WEEKS_PER_MONTH), monthly)
  {
    RoundIsNearest(monthly / WEEKS_PER_MONTH);
    assert monthly / 4.33 * 4.33 == monthly;
  }

  // ----- financing

  // A fifth unless the request names a share, to the cent.
  predicate Down(down: int, r: FinanceRequest) {
    var pct := if r.downPct == 0.0 then 0.2 else r.downPct;
    -0.5 <= down as real - r.model.price as real * pct <= 0.5
  }

  // Owing the price less the down payment with interest, over so many months.
  ghost predicate FinancedLoan(l: Loan, principal: int, rate: Rate, months: int, aircraft: nat) {
    var total := principal as real * (1.0 + rate);
    && l == Loan(AircraftFinancing, principal, rate, l.remaining, l.weekly, l.monthly, Active, 0, Some(aircraft))
    && l.remaining == Round(total) && l.monthly.Some? && SpreadsOver(l.monthly.value, months, total)
    && exists month: real :: Months(month, total, months as real) && WeekOf(l.weekly, month)
  }

  lemma FinancedLoanIs(principal: int, rate: Rate, months: int, aircraft: nat)
    requires months > 0
    ensures FinancedLoan(FinancingLoan(principal, rate, months, aircraft), principal, rate, months, aircraft)
  {
    var total := principal as real * (1.0 + rate);
    var month := total / months as real;
    assert month * months as real == total;
    Spreads(total, months, Round(month));
    WeekIs(month);
    assert Months(month, total, months as real);
  }

  lemma FinancingWith(a: Airline, m: Model, down: int, months: int, rate: Rate, f: Faults)
    requires months > 0 && 0 <= down && FinanceWith(a, m, down, months, rate, f).1.Accepted?
    ensures down < m.price
    ensures var a' := FinanceWith(a, m, down, months, rate, f).0;
            && a' == Airline(a'.account, a.loans + [FinancingLoan(m.price - down, rate, months, |a.fleet|)],
                             a.fleet + [Aircraft(m, Financed, 100.0, InService, None, true)], a.onRoute, a.gameTime,
                             a.negativeDays, a.bankrupt)
            && Entered(a.account, a'.account, Debit, down, "investing", "aircraft_purchase_deposit")
  {
    RoundWhole(down);
    Enters(a, down as real, Debit, "investing", "aircraft_purchase_deposit", f.ledger);
  }

  lemma DownIs(r: FinanceRequest)
    requires 0.0 <= DownPctOf(r)
    ensures 0 <= DownPayment(r) && Down(DownPayment(r), r)
  {
    DownPaymentIsNotNegative(r);
    RoundIsNearest(r.model.price as real * DownPctOf(r));
  }

  // A new aircraft, and a loan on it for the rest of the price with interest.
  ghost predicate FinancedAs(a: Airline, a': Airline, m: Model, down: int, months: int, rate: Rate) {
    && down < m.price && |a'.loans| == |a.loans| + 1
    && a' == Airline(a'.account, a.loans + [a'.loans[|a.loans|]],
                     a.fleet + [Aircraft(m, Financed, 100.0, InService, None, true)], a.onRoute, a.gameTime,
                     a.negativeDays, a.bankrupt)
    && FinancedLoan(a'.loans[|a.loans|], m.price - down, rate, months, |a.fleet|)
    && Entered(a.account, a'.account, Debit, down, "investing", "aircraft_purchase_deposit")
  }

  lemma FinancedWith(a: Airline, m: Model, down: int, months: int, rate: Rate, f: Faults)
    requires months > 0 && 0 <= down && FinanceWith(a, m, down, months, rate, f).1.Accepted?
    ensures FinancedAs(a, FinanceWith(a, m, down, months, rate, f).0, m, down, months, rate)
  {
    FinancingWith(a, m, down, months, rate, f);
    FinancedLoanIs(m.price - down, rate, months, |a.fleet|);
  }

  /** Financing is granted for one to five years, with a tenth to a half paid down, for a model within the tier's
      secured limit. It adds a new aircraft and a loan on it for the rest of the price with interest. */
  lemma FinancingDelivers(a: Airline, r: FinanceRequest, p: Policy, f: Faults)
    requires Exec(a, Finance(r, p), f).1.Accepted?
    ensures (r.isPlayer && 1 < r.model.minTier ==> r.model.minTier <= r.tier) && r.model.price as real <= p.maxSecured
    ensures r.termMonths in {0, 12, 24, 36, 48, 60} && (r.downPct == 0.0 || 0.1 <= r.downPct <= 0.5)
    ensures exists down: nat ::
              Down(down, r)
              && FinancedAs(a, Exec(a, Finance(r, p), f).0, r.model, down,
                            if r.termMonths == 0 then 36 else r.termMonths, p.rateSecured)
  {
    DownIs(r);
    FinancedWith(a, r.model, DownPayment(r), TermOf(r), p.rateSecured, f);
  }

  /** And those limits are all there is to it: with them met, whoever can pay down less than the price is granted it. */
  lemma FinancingIsGrantedIff(a: Airline, r: FinanceRequest, p: Policy)
    ensures Exec(a, Finance(r, p), NO_FAULTS).1.Accepted? <==>
              && (r.isPlayer && 1 < r.model.minTier ==> r.model.minTier <= r.tier)
              && r.model.price as real <= p.maxSecured && r.termMonths in {0, 12, 24, 36, 48, 60}
              && (r.downPct == 0.0 || 0.1 <= r.downPct <= 0.5)
              && DownPayment(r) <= a.account.balance && DownPayment(r) < r.model.price
  {
    GrantedIff(a, Finance(r, p));
    RoundWhole(a.account.balance);
    RoundWhole(DownPayment(r));
  }

  /** Likewise for loans. */
  lemma BorrowingIsGrantedIff(a: Airline, principal: real, weeks: int, loanType: LoanType, collateral: bool, p: Policy)
    ensures Exec(a, Borrow(principal, weeks, loanType, collateral, p), NO_FAULTS).1.Accepted? <==>
              && !collateral && (loanType.Unsecured? || loanType.CreditLine?) && ActiveLoans(a) < p.maxActive
              && 0.5 <= principal && p.minLoan <= principal
              && (if loanType.CreditLine? then principal * 2.0 else principal) <= p.maxUnsecured
  {
    GrantedIff(a, Borrow(principal, weeks, loanType, collateral, p));
    RoundIsNearest(principal);
  }

  // ----- when something fails

  predicate Whole(a: Airline, c: Command) {
    c.RepairAircraft? && Owns(a, c.id) && a.fleet[c.id].condition >= 100.0
  }

  /** A command is only granted when nothing it did has failed: neither opening nor committing its transaction, nor the
      movement of cash, nor the write. A repair of a whole aircraft does nothing but open it. */
  lemma GrantedOnlyIfNothingFailed(a: Airline, c: Command, f: Faults)
    requires !c.ServeLoans? && !c.ServeFinancing? && !c.NegativeDay? && !c.Bankruptcy? && !c.Simulate?
    requires Exec(a, c, f).1.Accepted?
    ensures !f.begin
    ensures !Whole(a, c) ==> !f.commit && !f.write && (f.ledger ==> c.RefinanceLoan?)
  {
  }

  /** Likewise a window. */
  lemma WindowsOnlyCount(a: Airline, postings: seq<Posting>, f: Faults)
    requires Exec(a, Simulate(postings), f).1.Accepted?
    ensures !f.begin && !f.commit && Post(a, postings, f) == Some(Exec(a, Simulate(postings), f).0)
    ensures f.ledger ==> forall i :: 0 <= i < |postings| ==> postings[i].amount <= 0.0
  {
    if f.ledger {
      NothingPosted(a, postings, f);
    }
  }

  lemma {:induction false} NothingPosted(a: Airline, postings: seq<Posting>, f: Faults)
    requires f.ledger && Post(a, postings, f).Some?
    ensures forall i :: 0 <= i < |postings| ==> postings[i].amount <= 0.0
    decreases postings
  {
    if postings != [] {
      NothingPosted(a, postings[..|postings| - 1], f);
    }
  }

  // ----- there and back

  function Twice(a: Airline, first: Command, second: Command): Airline {
    Run(a, [Call(first, NO_FAULTS), Call(second, NO_FAULTS)])
  }

  lemma TwiceIs(a: Airline, first: Command, second: Command)
    ensures Twice(a, first, second) == Exec(Exec(a, first, NO_FAULTS).0, second, NO_FAULTS).0
  {
    var one, calls := [Call(first, NO_FAULTS)], [Call(first, NO_FAULTS), Call(second, NO_FAULTS)];
    assert one[..0] == [] && Run(a, one[..0]) == a;
    assert Run(a, one) == Exec(a, first, NO_FAULTS).0;
    assert calls[..1] == one;
  }

  lemma SaleOfTheNew(price: nat, now: Option<real>)
    ensures SaleValue(100.0, price, None, now) == price as real
  {
  }

  /** A purchase sold again at once costs nothing: an aircraft nobody has dated keeps its price. */
  lemma BuyingAndSellingCostsNothing(a: Airline, o: Order)
    requires Exec(a, BuyAircraft(o), NO_FAULTS).1.Accepted? && |a.fleet| !in a.onRoute
    ensures var a' := Twice(a, BuyAircraft(o), SellAircraft(|a.fleet|));
            && a'.account.balance == a.account.balance && a'.loans == a.loans
            && |a'.fleet| == |a.fleet| + 1 && a'.fleet[..|a.fleet|] == a.fleet && !a'.fleet[|a.fleet|].present
  {
    var bought, sells := Exec(a, BuyAircraft(o), NO_FAULTS).0, SellAircraft(|a.fleet|);
    TwiceIs(a, BuyAircraft(o), sells);
    BuyingDelivers(a, BuyAircraft(o), NO_FAULTS);
    GrantedIff(bought, sells);
    LeavingTakesTheAircraft(bought, sells, NO_FAULTS);
    SaleOfTheNew(o.model.price, a.gameTime);
    RoundWhole(o.model.price);
  }

  /** A lease ended again at once costs its deposit and a quarter of a month's rent, if the player has that left. */
  lemma LeasingAndEndingCosts(a: Airline, o: Order, basePct: real)
    requires Exec(a, LeaseAircraft(o, basePct), NO_FAULTS).1.Accepted? && |a.fleet| !in a.onRoute
    requires var deposit := Round(LeaseDeposit(o.model.price, o.model.leasePrice, basePct));
             deposit + Round(LeaseExitFee(o.model.leasePrice)) <= a.account.balance
    ensures var a' := Twice(a, LeaseAircraft(o, basePct), EndLease(|a.fleet|));
            && a'.account.balance == a.account.balance
                                     - Round(LeaseDeposit(o.model.price, o.model.leasePrice, basePct))
                                     - Round(LeaseExitFee(o.model.leasePrice))
            && |a'.fleet| == |a.fleet| + 1 && a'.fleet[..|a.fleet|] == a.fleet && !a'.fleet[|a.fleet|].present
  {
    var leased, ends := Exec(a, LeaseAircraft(o, basePct), NO_FAULTS).0, EndLease(|a.fleet|);
    TwiceIs(a, LeaseAircraft(o, basePct), ends);
    BuyingDelivers(a, LeaseAircraft(o, basePct), NO_FAULTS);
    RoundWhole(leased.account.balance);
    GrantedIff(leased, ends);
    LeavingTakesTheAircraft(leased, ends, NO_FAULTS);
  }

  /** A second repair changes nothing. */
  lemma RepairingAgainChangesNothing(a: Airline, id: nat)
    requires Exec(a, RepairAircraft(id), NO_FAULTS).1.Accepted?
    ensures Twice(a, RepairAircraft(id), RepairAircraft(id)) == Exec(a, RepairAircraft(id), NO_FAULTS).0
  {
    TwiceIs(a, RepairAircraft(id), RepairAircraft(id));
    RepairMakesWhole(a, id, NO_FAULTS);
    RepairMakesWhole(Exec(a, RepairAircraft(id), NO_FAULTS).0, id, NO_FAULTS);
  }

  /** A loan repaid at once costs nothing, interest included, and owes nothing. */
  lemma BorrowingAndRepayingCostsNothing(a: Airline, c: Command)
    requires c.Borrow? && Exec(a, c, NO_FAULTS).1.Accepted? && 0 <= a.account.balance
    ensures var a' := Twice(a, c, RepayLoan(|a.loans|, None));
            && a'.account.balance == a.account.balance && a'.fleet == a.fleet
            && |a'.loans| == |a.loans| + 1 && a'.loans[..|a.loans|] == a.loans
            && a'.loans[|a.loans|].status.PaidOff? && a'.loans[|a.loans|].remaining == 0
  {
    var lent, repays := Exec(a, c, NO_FAULTS).0, RepayLoan(|a.loans|, None);
    TwiceIs(a, c, repays);
    BorrowingAddsTheLoan(a, c, NO_FAULTS);
    GrantedIff(a, c);
    var l := lent.loans[|a.loans|];
    RoundWhole(l.remaining);
    RoundWhole(lent.account.balance);
    GrantedIff(lent, repays);
    RepayingPaysDown(lent, |a.loans|, None, NO_FAULTS);
  }

  /** A financed aircraft whose loan is repaid is the player's own, and can be sold. */
  lemma FinancingAndRepayingLetsSell(a: Airline, r: FinanceRequest, p: Policy)
    requires Exec(a, Finance(r, p), NO_FAULTS).1.Accepted? && |a.fleet| !in a.onRoute
    requires var financed := Exec(a, Finance(r, p), NO_FAULTS).0;
             financed.loans[|a.loans|].remaining <= financed.account.balance
    ensures var a' := Twice(a, Finance(r, p), RepayLoan(|a.loans|, None));
            && |a'.fleet| == |a.fleet| + 1 && a'.fleet[|a.fleet|].acquisition.Bought?
            && Exec(a', SellAircraft(|a.fleet|), NO_FAULTS).1.Accepted?
  {
    var financed, repays := Exec(a, Finance(r, p), NO_FAULTS).0, RepayLoan(|a.loans|, None);
    TwiceIs(a, Finance(r, p), repays);
    FinancingDelivers(a, r, p, NO_FAULTS);
    var l := financed.loans[|a.loans|];
    OwesSomething(a, r, p);
    RoundWhole(l.remaining);
    RoundWhole(financed.account.balance);
    GrantedIff(financed, repays);
    RepayingPaysDown(financed, |a.loans|, None, NO_FAULTS);
    GrantedIff(Twice(a, Finance(r, p), repays), SellAircraft(|a.fleet|));
  }

  lemma OwesSomething(a: Airline, r: FinanceRequest, p: Policy)
    requires Exec(a, Finance(r, p), NO_FAULTS).1.Accepted?
    ensures |Exec(a, Finance(r, p), NO_FAULTS).0.loans| == |a.loans| + 1
    ensures Exec(a, Finance(r, p), NO_FAULTS).0.loans[|a.loans|].remaining > 0
  {
    DownIs(r);
    FinancingWith(a, r.model, DownPayment(r), TermOf(r), p.rateSecured, NO_FAULTS);
    FinancedLoanOwesThePrincipal(r.model.price - DownPayment(r), p.rateSecured);
  }
}
