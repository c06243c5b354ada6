/**
 What a day boundary does to the player's loans and solvency (apps/api/internal/engine/dayboundary.go and
 applyBankruptcy / processDayBoundary in apps/api/internal/engine/simulation.go), when no statement fails.
 */
module DayBoundary {
  import opened Sequences
  import opened Money
  import opened Airline
  import opened Fleet
  import opened Bank

  // The two payment loops differ in which loans they serve and in how they treat a missed installment.
  datatype Service = Service(financing: bool, feePct: real, limit: nat, outcome: LoanStatus, subcategory: string)

  const LOAN_SERVICE := Service(false, 0.10, 4, Defaulted, "loan_payment")
  const FINANCING_SERVICE := Service(true, 0.05, 3, Repossessed, "financing_payment")

  predicate Serves(s: Service, l: Loan) {
    l.status.Active? && l.loanType.AircraftFinancing? == s.financing
  }

  // Zero means the loan is passed over.
  function Installment(l: Loan): real {
    if l.weekly > 0 then l.weekly as real
    else if l.monthly.Some? && l.monthly.value > 0 then l.monthly.value as real / WEEKS_PER_MONTH
    else 0.0
  }

  function Penalty(installment: real, pct: real): real {
    installment * pct
  }

  function AfterMiss(s: Service, l: Loan): Loan {
    l.(remaining := Round(l.remaining as real + Penalty(Installment(l), s.feePct)), missed := l.missed + 1,
       status := if l.missed + 1 >= s.limit then s.outcome else l.status)
  }

  function GroundCollateral(a: Airline, collateral: Option<nat>): Airline {
    if collateral.Some? && Owns(a, collateral.value)
    then SetAircraft(a, collateral.value, a.fleet[collateral.value].(status := Grounded))
    else a
  }

  function Miss(s: Service, a: Airline, id: nat): Airline
    requires id < |a.loans|
  {
    var l := AfterMiss(s, a.loans[id]);
    var a' := SetLoan(a, id, l);
    if l.missed >= s.limit then GroundCollateral(a', l.collateral) else a'
  }

  // `cash` is the loop's own running balance, which decides whether an installment is attempted.
  function ServeOne(s: Service, a: Airline, cash: real, id: nat): (r: (Airline, real))
    requires id < |a.loans|
    ensures |r.0.loans| == |a.loans|
  {
    var l := a.loans[id];
    if !Serves(s, l) || Installment(l) <= 0.0 then (a, cash)
    else if AtLeast(cash, Installment(l)) then
      var paid := DebitTx(a, Installment(l), "financing", s.subcategory, false);
      if paid.None? then (a, cash)
      else (SetLoan(paid.value, id, AfterPayment(l, Installment(l))), cash - Installment(l))
    else (Miss(s, a, id), cash)
  }

  function ServeFrom(s: Service, a: Airline, cash: real, id: nat): Airline
    decreases |a.loans| - id
  {
    if id >= |a.loans| then a else
      var (a', cash') := ServeOne(s, a, cash, id);
      ServeFrom(s, a', cash', id + 1)
  }

  function Serve(s: Service, a: Airline): Airline {
    ServeFrom(s, a, a.account.balance as real, 0)
  }

  function Grounding(craft: Aircraft): Aircraft {
    craft.(status := Grounded)
  }

  function Defaulting(l: Loan): Loan {
    if l.status.Active? then l.(status := Defaulted, remaining := 0) else l
  }

  function GoBankrupt(a: Airline): Airline {
    a.(bankrupt := true, fleet := seq(|a.fleet|, i requires 0 <= i < |a.fleet| => Grounding(a.fleet[i])),
       loans := seq(|a.loans|, i requires 0 <= i < |a.loans| => Defaulting(a.loans[i])))
  }

  // A non-positive threshold disables the day count.
  function CountNegativeDay(a: Airline, threshold: int): Airline {
    if a.account.balance >= 0 then a.(negativeDays := 0)
    else
      var counted := a.(negativeDays := a.negativeDays + 1);
      if threshold > 0 && counted.negativeDays >= threshold then GoBankrupt(counted) else counted
  }

  function DayBoundary(a: Airline, threshold: int): Airline {
    CountNegativeDay(Serve(FINANCING_SERVICE, Serve(LOAN_SERVICE, a)), threshold)
  }
}
