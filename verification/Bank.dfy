/** The bank commands (apps/api/internal/engine/bank.go). */
module Bank {
  import opened Sequences
  import opened Money
  import opened Airline
  import opened Fleet

  // The player's tier policy, and the limits every tier shares. Amounts are in cents.
  datatype Policy = Policy(
    maxActive: int, minLoan: real, maxUnsecured: real, rateUnsecured: Rate, maxSecured: real, rateSecured: Rate)

  const WEEKS_PER_MONTH: real := 4.33
  const HALF_CENT: real := 0.5  // the source's moneyEpsilon, in cents

  function IsActive(l: Loan): int {
    if l.status.Active? then 1 else 0
  }

  function ActiveLoans(a: Airline): int {
    Total(IsActive, a.loans)
  }

  function SetLoan(a: Airline, id: nat, l: Loan): Airline
    requires id < |a.loans|
  {
    a.(loans := a.loans[id := l])
  }

  // ----- borrowing

  function TakeLoan(a: Airline, principal: real, termWeeks: int,
                    loanType: LoanType, collateral: bool, p: Policy, f: Faults)
    : (Airline, Outcome)
  {
    if principal <= 0.0 || collateral then (a, Refused)
    else WithTx(a, TakeLoanBody(a, principal, if termWeeks <= 0 then 52 else termWeeks, loanType, p, f), f, Broken)
  }

  function BorrowingLimit(loanType: LoanType, p: Policy): real {
    if loanType.Unsecured? then p.maxUnsecured else p.maxUnsecured * 0.5
  }

  function BorrowingRate(loanType: LoanType, p: Policy): Rate {
    if loanType.Unsecured? then p.rateUnsecured else p.rateUnsecured + 0.02
  }

  function WithInterest(principal: real, rate: Rate): real {
    principal * (1.0 + rate)
  }

  // What is owed at first is the principal; the interest only shows in the installments.
  function NewLoan(principal: real, termWeeks: int, loanType: LoanType, rate: Rate): Loan
    requires termWeeks > 0
  {
    var weekly := WithInterest(principal, rate) / termWeeks as real;
    Loan(loanType, Round(principal), rate, Round(principal), Round(weekly), Some(Round(weekly * WEEKS_PER_MONTH)),
         Active, 0, None)
  }

  function TakeLoanBody(a: Airline, principal: real, termWeeks: int, loanType: LoanType, p: Policy, f: Faults): Body
    requires termWeeks > 0
  {
    if ActiveLoans(a) >= p.maxActive then Body(a, Rollback(Refused))
    else if loanType.AircraftFinancing? || loanType.Secured? then Body(a, Rollback(Refused))
    else if principal < p.minLoan || principal > BorrowingLimit(loanType, p) then Body(a, Rollback(Refused))
    else
      var loan := NewLoan(principal, termWeeks, loanType, BorrowingRate(loanType, p));
      if f.write || loan.principal <= 0 then Body(a, Rollback(Broken))  // loans_principal_check
      else
        var lent := a.(loans := a.loans + [loan]);
        var paid := CreditTx(lent, principal, "financing", "loan_disbursement", f.ledger);
        if paid.None? then Body(lent, Rollback(Broken)) else Body(paid.value, Commit)
  }

  // ----- repaying

  // The update shared by a repayment and an installment.
  function AfterPayment(l: Loan, payment: real): Loan {
    var left := l.remaining as real - payment;
    l.(remaining := Round(MaxReal(0.0, left)), status := if left <= HALF_CENT then PaidOff else l.status)
  }

  function Owed(l: Loan, amount: Option<real>): real {
    if amount.Some? && amount.value < l.remaining as real then amount.value else l.remaining as real
  }

  function Repay(a: Airline, id: nat, amount: Option<real>, f: Faults): (Airline, Outcome) {
    WithTx(a, RepayBody(a, id, amount, f), f, Broken)
  }

  // A financed aircraft becomes the player's own with the repayment that settles its loan.
  function Released(a: Airline, l: Loan): Airline {
    if l.status.PaidOff? && l.loanType.AircraftFinancing? && l.collateral.Some?
       && Owns(a, l.collateral.value) && a.fleet[l.collateral.value].acquisition.Financed?
    then SetAircraft(a, l.collateral.value, a.fleet[l.collateral.value].(acquisition := Bought))
    else a
  }

  function RepayBody(a: Airline, id: nat, amount: Option<real>, f: Faults): Body {
    if id >= |a.loans| || !a.loans[id].status.Active? then Body(a, Rollback(Refused))
    else
      var payment := Owed(a.loans[id], amount);
      if payment <= 0.0 then Body(a, Rollback(Refused))
      else if LessThan(a.account.balance as real, payment) then Body(a, Rollback(Refused))
      else
        var paid := DebitTx(a, payment, "financing", "loan_repayment", f.ledger);
        var loan := AfterPayment(a.loans[id], payment);
        var written := if paid.Some? then Released(SetLoan(paid.value, id, loan), loan) else a;
        PaidThen(a, paid, written, f.write, Broken)
  }

  // ----- refinancing

  function CeilDiv(a: real, b: real): real
    requires b != 0.0
  {
    Up(a / b)
  }

  // By way of a truncating conversion.
  function Up(c: real): real {
    var whole := if c >= 0.0 then c.Floor else -((-c).Floor);
    if c > whole as real then whole as real + 1.0 else whole as real
  }

  function Periods(remaining: int, monthly: int, weekly: int): real {
    if monthly > 0 then MaxReal(1.0, CeilDiv(remaining as real, monthly as real))
    else if weekly > 0 then MaxReal(1.0, CeilDiv(remaining as real, weekly as real))
    else 1.0
  }

  function NewTotal(remaining: int, rate: Rate, newRate: Rate): real {
    remaining as real / (1.0 + rate) * (1.0 + newRate)
  }

  function Refinanced(l: Loan, newRate: Rate): Loan
    requires l.monthly.Some?
  {
    var total := NewTotal(l.remaining, l.rate, newRate);
    var monthly := total / Periods(l.remaining, l.monthly.value, l.weekly);
    l.(rate := newRate, remaining := Round(total), monthly := Some(Round(monthly)),
       weekly := Round(monthly / WEEKS_PER_MONTH))
  }

  function OfferedRate(l: Loan, p: Policy): Rate {
    if l.loanType.Secured? || l.loanType.AircraftFinancing? then p.rateSecured else p.rateUnsecured
  }

  function Refinance(a: Airline, id: nat, p: Policy, f: Faults): (Airline, Outcome) {
    WithTx(a, RefinanceBody(a, id, p, f), f, Broken)
  }

  // An absent monthly payment cannot be read and fails the command.
  function RefinanceBody(a: Airline, id: nat, p: Policy, f: Faults): Body {
    if id >= |a.loans| || !a.loans[id].status.Active? then Body(a, Rollback(Refused))
    else if a.loans[id].monthly.None? then Body(a, Rollback(Broken))
    else if OfferedRate(a.loans[id], p) >= a.loans[id].rate then Body(a, Rollback(Refused))
    else if f.write then Body(a, Rollback(Broken))
    else Body(SetLoan(a, id, Refinanced(a.loans[id], OfferedRate(a.loans[id], p))), Commit)
  }

  // ----- financing an aircraft

  datatype FinanceRequest = FinanceRequest(model: Model, isPlayer: bool, tier: int, downPct: real, termMonths: int)

  function FinancingLoan(principal: int, rate: Rate, termMonths: int, aircraft: nat): Loan
    requires termMonths > 0
  {
    var total := principal as real * (1.0 + rate);
    var monthly := total / termMonths as real;
    Loan(AircraftFinancing, principal, rate, Round(total), Round(monthly / WEEKS_PER_MONTH), Some(Round(monthly)),
         Active, 0, Some(aircraft))
  }

  function TermOf(r: FinanceRequest): int {
    if r.termMonths == 0 then 36 else r.termMonths
  }

  function DownPctOf(r: FinanceRequest): real {
    if r.downPct == 0.0 then 0.20 else r.downPct
  }

  function DownPayment(r: FinanceRequest): int {
    Round(r.model.price as real * DownPctOf(r))
  }

  predicate FinanceAllowed(r: FinanceRequest, p: Policy) {
    && TierAllows(r.isPlayer, r.tier, r.model.minTier)
    && r.model.price as real <= p.maxSecured
    && TermOf(r) in {12, 24, 36, 48, 60}
    && 0.10 <= DownPctOf(r) <= 0.50
  }

  function FinanceAircraft(a: Airline, r: FinanceRequest, p: Policy, f: Faults): (Airline, Outcome) {
    if !FinanceAllowed(r, p) then (a, Refused) else FinanceWith(a, r.model, DownPayment(r), TermOf(r), p.rateSecured, f)
  }

  function FinanceWith(a: Airline, m: Model, down: int, term: int, rate: Rate, f: Faults): (Airline, Outcome)
    requires term > 0
  {
    if LessThan(a.account.balance as real, down as real) then (a, Refused)
    else WithTx(a, FinanceBody(a, m, down, term, rate, f), f, Broken)
  }

  function FinanceBody(a: Airline, m: Model, down: int, term: int, rate: Rate, f: Faults): Body
    requires term > 0
  {
    var paid := DebitTx(a, down as real, "investing", "aircraft_purchase_deposit", f.ledger);
    if paid.None? then Body(a, Rollback(Broken))
    else
      var delivered := WithAircraft(paid.value, Delivered(m, Financed));
      var principal := m.price - down;
      if f.write || principal <= 0 then Body(delivered, Rollback(Broken))  // loans_principal_check
      else Body(delivered.(loans := delivered.loans + [FinancingLoan(principal, rate, term, |a.fleet|)]), Commit)
  }
}
