/** Commands, runs of commands, and what every run keeps of the account and its ledger. */
module AirlineRuns {
  import opened Sequences
  import opened Money
  import opened Airline
  import opened Fleet
  import opened Bank
  import opened DayBoundary

  // What one simulated window posts (apps/api/internal/engine/simulation.go:429-506).
  datatype Item = TicketRevenue | CargoRevenue | FuelCost | CrewCost | MaintenanceCost | LeaseCost | IdleLease

  datatype Posting = Posting(item: Item, amount: real)

  datatype Command =
    | BuyAircraft(order: Order)
    | LeaseAircraft(order: Order, basePct: real)
    | SellAircraft(id: nat)
    | EndLease(id: nat)
    | RepairAircraft(id: nat)
    | Borrow(principal: real, termWeeks: int, loanType: LoanType, collateral: bool, policy: Policy)
    | RepayLoan(id: nat, amount: Option<real>)
    | RefinanceLoan(id: nat, policy: Policy)
    | Finance(request: FinanceRequest, policy: Policy)
    | ServeLoans
    | ServeFinancing
    | NegativeDay(threshold: int)
    | Bankruptcy
    | Simulate(postings: seq<Posting>)

  function KindOf(item: Item): Kind {
    if item.TicketRevenue? || item.CargoRevenue? then Credit else Debit
  }

  function CategoryOf(item: Item): string {
    match item
    case TicketRevenue => "revenue"
    case CargoRevenue => "revenue"
    case LeaseCost => "opex"
    case IdleLease => "opex"
    case _ => "cogs"
  }

  function SubcategoryOf(item: Item): string {
    match item
    case TicketRevenue => "ticket_revenue"
    case CargoRevenue => "cargo_revenue"
    case FuelCost => "fuel_cost"
    case CrewCost => "crew_cost"
    case MaintenanceCost => "maintenance_cost"
    case LeaseCost => "aircraft_lease"
    case IdleLease => "aircraft_lease_idle"
  }

  // Costs may overdraw the account; an amount that is not positive is not posted.
  function Post(a: Airline, postings: seq<Posting>, f: Faults): Option<Airline> {
    if postings == [] then Some(a) else
      var p := postings[|postings| - 1];
      var before := Post(a, postings[..|postings| - 1], f);
      if before.None? then None
      else if p.amount <= 0.0 then before
      else ApplyTx(before.value, p.amount, KindOf(p.item), KindOf(p.item) == Debit, CategoryOf(p.item),
                   SubcategoryOf(p.item), f.ledger)
  }

  function SimulateBody(a: Airline, postings: seq<Posting>, f: Faults): Body {
    var posted := Post(a, postings, f);
    if posted.None? then Body(a, Rollback(Broken)) else Body(posted.value, Commit)
  }

  function Exec(a: Airline, c: Command, f: Faults): (Airline, Outcome) {
    match c
    case BuyAircraft(order) => Purchase(a, order, f)
    case LeaseAircraft(order, basePct) => Lease(a, order, basePct, f)
    case SellAircraft(id) => Sell(a, id, f)
    case EndLease(id) => TerminateLease(a, id, f)
    case RepairAircraft(id) => Repair(a, id, f)
    case Borrow(principal, termWeeks, loanType, collateral, policy) =>
      TakeLoan(a, principal, termWeeks, loanType, collateral, policy, f)
    case RepayLoan(id, amount) => Repay(a, id, amount, f)
    case RefinanceLoan(id, policy) => Refinance(a, id, policy, f)
    case Finance(request, policy) => FinanceAircraft(a, request, policy, f)
    case ServeLoans => (Serve(LOAN_SERVICE, a), Accepted)
    case ServeFinancing => (Serve(FINANCING_SERVICE, a), Accepted)
    case NegativeDay(threshold) => (CountNegativeDay(a, threshold), Accepted)
    case Bankruptcy => (GoBankrupt(a), Accepted)
    case Simulate(postings) => WithTx(a, SimulateBody(a, postings, f), f, Broken)
  }

  datatype Call = Call(command: Command, faults: Faults)

  function Run(a: Airline, calls: seq<Call>): Airline {
    if calls == [] then a
    else Exec(Run(a, calls[..|calls| - 1]), calls[|calls| - 1].command, calls[|calls| - 1].faults).0
  }

  /** A command that is refused or fails, at whatever statement, leaves the whole state as it was. */
  lemma FailureChangesNothing(a: Airline, c: Command, f: Faults)
    requires Exec(a, c, f).1 != Accepted
    ensures Exec(a, c, f).0 == a
  {
  }

  // ----- the account

  predicate KnownRow(row: Row) {
    if row.kind == Credit then
      || (row.category == "revenue" && row.subcategory in {"ticket_revenue", "cargo_revenue"})
      || (row.category == "investing" && row.subcategory == "aircraft_sale")
      || (row.category == "financing" && row.subcategory == "loan_disbursement")
    else
      || (row.category == "cogs" && row.subcategory in {"fuel_cost", "crew_cost", "maintenance_cost", "maintenance"})
      || (row.category == "opex" && row.subcategory in {"aircraft_lease", "aircraft_lease_idle", "lease_termination"})
      || (row.category == "investing"
          && row.subcategory in {"aircraft_purchase", "aircraft_purchase_deposit", "aircraft_lease_deposit"})
      || (row.category == "financing" && row.subcategory in {"loan_repayment", "loan_payment", "financing_payment"})
  }

  // Reconciled, and every row of a kind the engine writes.
  ghost predicate AccountInv(account: Account) {
    Reconciled(account) && forall row :: row in account.ledger ==> KnownRow(row)
  }

  // The same account, possibly after some movements; only those that may can have overdrawn it.
  ghost predicate Moved(before: Account, after: Account, mayOverdraw: bool) {
    && after.opening == before.opening
    && before.ledger <= after.ledger
    && (AccountInv(before) ==> AccountInv(after))
    && (!mayOverdraw && 0 <= before.balance ==> 0 <= after.balance)
  }

  lemma MovementKeepsAccount(a: Airline, amount: real, kind: Kind, allowNegative: bool,
                             category: string, subcategory: string, fails: bool)
    requires KnownRow(Row(kind, category, subcategory, 0, 0))
    ensures var r := ApplyTx(a, amount, kind, allowNegative, category, subcategory, fails);
            r.Some? ==> Moved(a.account, r.value.account, allowNegative) && r.value == a.(account := r.value.account)
  {
    if AccountInv(a.account) && Round(amount) > 0 {
      PostingReconciles(a.account, kind, category, subcategory, Round(amount));
    }
  }

  lemma {:induction false} PostKeepsAccount(a: Airline, postings: seq<Posting>, f: Faults)
    ensures Post(a, postings, f).Some? ==>
              var a' := Post(a, postings, f).value;
              Moved(a.account, a'.account, true) && a' == a.(account := a'.account)
    decreases postings
  {
    if postings != [] {
      var shorter, p := postings[..|postings| - 1], postings[|postings| - 1];
      PostKeepsAccount(a, shorter, f);
      var before := Post(a, shorter, f);
      if before.Some? {
        MovementKeepsAccount(before.value, p.amount, KindOf(p.item), KindOf(p.item) == Debit,
                             CategoryOf(p.item), SubcategoryOf(p.item), f.ledger);
      }
    }
  }

  lemma {:induction false} ServiceKeepsAccount(s: Service, a: Airline, cash: real, id: nat)
    requires s == LOAN_SERVICE || s == FINANCING_SERVICE
    ensures Moved(a.account, ServeFrom(s, a, cash, id).account, false)
    decreases |a.loans| - id
  {
    if id < |a.loans| {
      MovementKeepsAccount(a, Installment(a.loans[id]), Debit, false, "financing", s.subcategory, false);
      var (a', cash') := ServeOne(s, a, cash, id);
      ServiceKeepsAccount(s, a', cash', id + 1);
    }
  }

  lemma PaidThenKeepsAccount(a: Airline, paid: Option<Airline>, written: Airline, f: Faults, failure: Outcome)
    requires paid.Some? ==> Moved(a.account, paid.value.account, false) && written.account == paid.value.account
    ensures Moved(a.account, WithTx(a, PaidThen(a, paid, written, f.write, failure), f, failure).0.account, false)
  {
  }

  lemma PurchaseKeepsAccount(a: Airline, o: Order, f: Faults)
    ensures Moved(a.account, Purchase(a, o, f).0.account, false)
  {
    var price := o.model.price as real;
    var paid := DebitTx(a, price, "investing", "aircraft_purchase", f.ledger);
    MovementKeepsAccount(a, price, Debit, false, "investing", "aircraft_purchase", f.ledger);
    PaidThenKeepsAccount(a, paid,
                         if paid.Some? then WithAircraft(paid.value, Delivered(o.model, Bought)) else a, f, Refused);
  }

  lemma LeaseKeepsAccount(a: Airline, o: Order, basePct: real, f: Faults)
    ensures Moved(a.account, Lease(a, o, basePct, f).0.account, false)
  {
    var deposit := LeaseDeposit(o.model.price, o.model.leasePrice, basePct);
    var paid := DebitTx(a, deposit, "investing", "aircraft_lease_deposit", f.ledger);
    MovementKeepsAccount(a, deposit, Debit, false, "investing", "aircraft_lease_deposit", f.ledger);
    PaidThenKeepsAccount(a, paid,
                         if paid.Some? then WithAircraft(paid.value, Delivered(o.model, Leased)) else a, f, Refused);
  }

  lemma SellKeepsAccount(a: Airline, id: nat, f: Faults)
    ensures Moved(a.account, Sell(a, id, f).0.account, false)
  {
    if Owns(a, id) {
      var craft := a.fleet[id];
      var value := SaleValue(craft.condition, craft.model.price, craft.acquired, a.gameTime);
      var paid := CreditTx(a, value, "investing", "aircraft_sale", f.ledger);
      MovementKeepsAccount(a, value, Credit, false, "investing", "aircraft_sale", f.ledger);
      PaidThenKeepsAccount(a, paid,
                           if paid.Some? then SetAircraft(paid.value, id, craft.(present := false)) else a, f, Refused);
    }
  }

  lemma EndLeaseKeepsAccount(a: Airline, id: nat, f: Faults)
    ensures Moved(a.account, TerminateLease(a, id, f).0.account, false)
  {
    if Owns(a, id) {
      var fee := LeaseExitFee(a.fleet[id].model.leasePrice);
      var paid := DebitTx(a, fee, "opex", "lease_termination", f.ledger);
      MovementKeepsAccount(a, fee, Debit, false, "opex", "lease_termination", f.ledger);
      PaidThenKeepsAccount(a, paid,
                           if paid.Some? then SetAircraft(paid.value, id, a.fleet[id].(present := false)) else a,
                           f, Refused);
    }
  }

  lemma RepairKeepsAccount(a: Airline, id: nat, f: Faults)
    ensures Moved(a.account, Repair(a, id, f).0.account, false)
  {
    if Owns(a, id) && a.fleet[id].condition < 100.0 {
      var cost := RepairCost(a.fleet[id].condition, a.fleet[id].model.price);
      var paid := DebitTx(a, cost, "cogs", "maintenance", f.ledger);
      MovementKeepsAccount(a, cost, Debit, false, "cogs", "maintenance", f.ledger);
      PaidThenKeepsAccount(a, paid,
                           if paid.Some?
                           then SetAircraft(paid.value, id, a.fleet[id].(condition := 100.0, status := InService))
                           else a,
                           f, Refused);
    }
  }

  lemma BorrowKeepsAccount(a: Airline, principal: real, termWeeks: int, loanType: LoanType, collateral: bool,
                           p: Policy, f: Faults)
    ensures Moved(a.account, TakeLoan(a, principal, termWeeks, loanType, collateral, p, f).0.account, false)
  {
    var term := if termWeeks <= 0 then 52 else termWeeks;
    var lent := a.(loans := a.loans + [NewLoan(principal, term, loanType, BorrowingRate(loanType, p))]);
    MovementKeepsAccount(lent, principal, Credit, false, "financing", "loan_disbursement", f.ledger);
  }

  lemma RepayKeepsAccount(a: Airline, id: nat, amount: Option<real>, f: Faults)
    ensures Moved(a.account, Repay(a, id, amount, f).0.account, false)
  {
    if id < |a.loans| {
      var payment := Owed(a.loans[id], amount);
      var loan := AfterPayment(a.loans[id], payment);
      var paid := DebitTx(a, payment, "financing", "loan_repayment", f.ledger);
      MovementKeepsAccount(a, payment, Debit, false, "financing", "loan_repayment", f.ledger);
      PaidThenKeepsAccount(a, paid,
                           if paid.Some? then Released(SetLoan(paid.value, id, loan), loan) else a, f, Broken);
    }
  }

  lemma FinanceKeepsAccount(a: Airline, m: Model, down: int, term: int, rate: Rate, f: Faults)
    requires term > 0
    ensures Moved(a.account, FinanceWith(a, m, down, term, rate, f).0.account, false)
  {
    MovementKeepsAccount(a, down as real, Debit, false, "investing", "aircraft_purchase_deposit", f.ledger);
  }

  lemma ExecKeepsAccount(a: Airline, c: Command, f: Faults)
    ensures Moved(a.account, Exec(a, c, f).0.account, c.Simulate?)
  {
    match c
    case BuyAircraft(o) => PurchaseKeepsAccount(a, o, f);
    case LeaseAircraft(o, basePct) => LeaseKeepsAccount(a, o, basePct, f);
    case SellAircraft(id) => SellKeepsAccount(a, id, f);
    case EndLease(id) => EndLeaseKeepsAccount(a, id, f);
    case RepairAircraft(id) => RepairKeepsAccount(a, id, f);
    case Borrow(principal, termWeeks, loanType, collateral, p) =>
      BorrowKeepsAccount(a, principal, termWeeks, loanType, collateral, p, f);
    case RepayLoan(id, amount) => RepayKeepsAccount(a, id, amount, f);
    case RefinanceLoan(id, p) =>
    case Finance(r, p) =>
      if FinanceAllowed(r, p) {
        FinanceKeepsAccount(a, r.model, DownPayment(r), TermOf(r), p.rateSecured, f);
      }
    case ServeLoans => ServiceKeepsAccount(LOAN_SERVICE, a, a.account.balance as real, 0);
    case ServeFinancing => ServiceKeepsAccount(FINANCING_SERVICE, a, a.account.balance as real, 0);
    case NegativeDay(_) =>
    case Bankruptcy =>
    case Simulate(postings) => PostKeepsAccount(a, postings, f);
  }

  /** In every run, with failures anywhere: rows are only ever added, the balance is the opening balance plus
      all of them, every row records the running balance, and only the simulation can overdraw the account. */
  lemma {:induction false} RunKeepsAccount(a: Airline, calls: seq<Call>)
    requires AccountInv(a.account)
    ensures AccountInv(Run(a, calls).account)
    ensures a.account.ledger <= Run(a, calls).account.ledger && Run(a, calls).account.opening == a.account.opening
    ensures 0 <= a.account.balance && (forall call :: call in calls ==> !call.command.Simulate?) ==>
              0 <= Run(a, calls).account.balance
    decreases calls
  {
    if calls != [] {
      var shorter, last := calls[..|calls| - 1], calls[|calls| - 1];
      RunKeepsAccount(a, shorter);
      ExecKeepsAccount(Run(a, shorter), last.command, last.faults);
    }
  }
}
