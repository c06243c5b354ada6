/**
 The cash-flow report and the income statement (apps/web/src/lib/features/finance/domain/ifrs-report-builder.ts,
 ifrs-category.ts) against the ledger the engine writes. A missing category or subcategory is the empty string.
 */
module CashFlow {
  import opened Sequences
  import opened Airline
  import opened Fleet
  import opened Bank
  import opened DayBoundary
  import opened AirlineRuns

  const TICKET := {"ticket_revenue", "route_revenue"}
  const CARGO := {"cargo_revenue"}
  const FUEL := {"fuel", "fuel_cost"}
  const CREW := {"crew", "crew_cost"}
  const MAINTENANCE := {"maintenance", "maintenance_cost"}
  const AIRPORT_FEES := {"airport_fees"}
  const LEASE := {"aircraft_lease", "aircraft_lease_idle", "aircraft_lease_init", "aircraft_lease_exit"}
  const REPAIR := {"aircraft_repair"}
  const CAPITAL := {"aircraft_purchase", "aircraft_purchase_deposit", "aircraft_lease_deposit"}
  const LOAN_IN := {"loan_disbursement"}
  const LOAN_OUT := {"loan_payment", "loan_repayment", "financing_payment"}

  predicate OperatingInflow(category: string, sub: string) {
    category == "revenue" || sub in TICKET || sub in CARGO
  }

  predicate OperatingOutflow(category: string, sub: string) {
    || category == "cogs" || category == "opex" || sub in FUEL || sub in CREW || sub in MAINTENANCE
       || sub in AIRPORT_FEES
    || category in LEASE || sub in LEASE
    || category in REPAIR || sub in REPAIR
  }

  datatype Bucket = RevenueIn | OperatingOut | CapitalOut | SaleIn | LoanIn | LoanOut

  const BUCKETS := {RevenueIn, OperatingOut, CapitalOut, SaleIn, LoanIn, LoanOut}

  predicate Falls(row: Row, b: Bucket) {
    match b
    case RevenueIn => row.kind == Credit && OperatingInflow(row.category, row.subcategory)
    case OperatingOut => row.kind == Debit && OperatingOutflow(row.category, row.subcategory)
    case CapitalOut => row.kind == Debit && row.subcategory in CAPITAL
    case SaleIn => row.kind == Credit && row.subcategory == "aircraft_sale"
    case LoanIn => row.kind == Credit && row.subcategory in LOAN_IN
    case LoanOut => row.kind == Debit && row.subcategory in LOAN_OUT
  }

  function Size(row: Row): nat {
    if row.amount >= 0 then row.amount else -row.amount
  }

  // What the report adds to one bucket for one row.
  function In(b: Bucket): Row -> int {
    (row: Row) => if Falls(row, b) then Size(row) else 0
  }

  datatype CashFlows = CashFlows(
    revenueInflows: int, operatingOutflows: int, operatingCashFlow: int,
    capitalExpenditure: int, aircraftSales: int, investingCashFlow: int,
    loanProceeds: int, loanRepayments: int, financingCashFlow: int, netCashChange: int)

  // The report a row set should give: every bucket summed on its own.
  function Report(rows: seq<Row>): CashFlows {
    var operating := Total(In(RevenueIn), rows) - Total(In(OperatingOut), rows);
    var investing := Total(In(SaleIn), rows) - Total(In(CapitalOut), rows);
    var financing := Total(In(LoanIn), rows) - Total(In(LoanOut), rows);
    CashFlows(Total(In(RevenueIn), rows), Total(In(OperatingOut), rows), operating,
              Total(In(CapitalOut), rows), Total(In(SaleIn), rows), investing,
              Total(In(LoanIn), rows), Total(In(LoanOut), rows), financing, operating + investing + financing)
  }

  lemma BucketTakesOneMore(b: Bucket, rows: seq<Row>, i: nat)
    requires i < |rows|
    ensures Total(In(b), rows[..i + 1]) == Total(In(b), rows[..i]) + if Falls(rows[i], b) then Size(rows[i]) else 0
  {
    assert rows[..i + 1][..i] == rows[..i];
  }

  method OperatingFlows(rows: seq<Row>) returns (revenueInflows: int, operatingOutflows: int)
    ensures revenueInflows == Total(In(RevenueIn), rows)
    ensures operatingOutflows == Total(In(OperatingOut), rows)
  {
    revenueInflows, operatingOutflows := 0, 0;
    for i := 0 to |rows|
      invariant revenueInflows == Total(In(RevenueIn), rows[..i])
      invariant operatingOutflows == Total(In(OperatingOut), rows[..i])
    {
      BucketTakesOneMore(RevenueIn, rows, i);
      BucketTakesOneMore(OperatingOut, rows, i);
      var row := rows[i];
      if row.kind == Credit && OperatingInflow(row.category, row.subcategory) {
        revenueInflows := revenueInflows + Size(row);
      }
      if row.kind == Debit && OperatingOutflow(row.category, row.subcategory) {
        operatingOutflows := operatingOutflows + Size(row);
      }
    }
    assert rows[..|rows|] == rows;
  }

  method InvestingFlows(rows: seq<Row>) returns (capitalExpenditure: int, aircraftSales: int)
    ensures capitalExpenditure == Total(In(CapitalOut), rows)
    ensures aircraftSales == Total(In(SaleIn), rows)
  {
    capitalExpenditure, aircraftSales := 0, 0;
    for i := 0 to |rows|
      invariant capitalExpenditure == Total(In(CapitalOut), rows[..i])
      invariant aircraftSales == Total(In(SaleIn), rows[..i])
    {
      BucketTakesOneMore(CapitalOut, rows, i);
      BucketTakesOneMore(SaleIn, rows, i);
      var row := rows[i];
      if row.kind == Debit && row.subcategory in CAPITAL {
        capitalExpenditure := capitalExpenditure + Size(row);
      } else if row.kind == Credit && row.subcategory == "aircraft_sale" {
        aircraftSales := aircraftSales + Size(row);
      }
    }
    assert rows[..|rows|] == rows;
  }

  method FinancingFlows(rows: seq<Row>) returns (loanProceeds: int, loanRepayments: int)
    ensures loanProceeds == Total(In(LoanIn), rows)
    ensures loanRepayments == Total(In(LoanOut), rows)
  {
    loanProceeds, loanRepayments := 0, 0;
    for i := 0 to |rows|
      invariant loanProceeds == Total(In(LoanIn), rows[..i])
      invariant loanRepayments == Total(In(LoanOut), rows[..i])
    {
      BucketTakesOneMore(LoanIn, rows, i);
      BucketTakesOneMore(LoanOut, rows, i);
      var row := rows[i];
      if row.subcategory in LOAN_IN && row.kind == Credit {
        loanProceeds := loanProceeds + Size(row);
      } else if row.subcategory in LOAN_OUT && row.kind == Debit {
        loanRepayments := loanRepayments + Size(row);
      }
    }
    assert rows[..|rows|] == rows;
  }

  method BuildCashFlows(rows: seq<Row>) returns (r: CashFlows)
    ensures r == Report(rows)
  {
    var revenueInflows, operatingOutflows := OperatingFlows(rows);
    var operating := revenueInflows - operatingOutflows;
    var capitalExpenditure, aircraftSales := InvestingFlows(rows);
    var investing := aircraftSales - capitalExpenditure;
    var loanProceeds, loanRepayments := FinancingFlows(rows);
    var financing := loanProceeds - loanRepayments;
    r := CashFlows(revenueInflows, operatingOutflows, operating, capitalExpenditure, aircraftSales, investing,
                   loanProceeds, loanRepayments, financing, operating + investing + financing);
  }

  // ----- how often a row is counted

  function Signed(row: Row): int {
    var size: int := Size(row);
    if row.kind == Credit then size else -size
  }

  function Counts(row: Row, b: Bucket): nat {
    if Falls(row, b) then 1 else 0
  }

  function TimesCounted(row: Row): nat {
    Counts(row, RevenueIn) + Counts(row, OperatingOut) + Counts(row, CapitalOut)
    + Counts(row, SaleIn) + Counts(row, LoanIn) + Counts(row, LoanOut)
  }

  function Contribution(row: Row): int {
    TimesCounted(row) * Signed(row)
  }

  lemma OneRow(row: Row)
    ensures Contribution(row) == In(RevenueIn)(row) - In(OperatingOut)(row) + In(SaleIn)(row) - In(CapitalOut)(row)
                                 + In(LoanIn)(row) - In(LoanOut)(row)
  {
  }

  /** The reported change in cash counts every row as often as there are buckets it falls in. */
  lemma {:induction false} ReportCountsRows(rows: seq<Row>)
    ensures Report(rows).netCashChange == Total(Contribution, rows)
    decreases rows
  {
    if rows != [] {
      ReportCountsRows(rows[..|rows| - 1]);
      OneRow(rows[|rows| - 1]);
    }
  }

  /** The one row is reported at its worth exactly when it is worth nothing or falls in one bucket, which can be
      read off its category and subcategory. */
  lemma CountedOnceIff(row: Row)
    ensures Report([row]).netCashChange == Signed(row) <==> row.amount == 0 || TimesCounted(row) == 1
    ensures row.kind == Credit ==>
              (TimesCounted(row) == 1 <==>
               (row.category == "revenue" || row.subcategory in TICKET + CARGO) !=
               (row.subcategory == "aircraft_sale" || row.subcategory in LOAN_IN))
    ensures row.kind == Debit ==>
              (TimesCounted(row) == 1 <==>
               OperatingOutflow(row.category, row.subcategory) != (row.subcategory in CAPITAL + LOAN_OUT))
  {
    ReportCountsRows([row]);
    assert Total(Contribution, [row]) == Contribution(row);
    var n, s := TimesCounted(row), Signed(row);
    assert n * s == s <==> (n - 1) * s == 0;
    assert (n - 1) * s == 0 <==> n == 1 || s == 0;
  }

  /** A sale booked as revenue is reported twice: with rows the engine does not write, the report can be wrong. */
  lemma SaleBookedAsRevenueIsCountedTwice(amount: nat)
    ensures Report([Row(Credit, "revenue", "aircraft_sale", amount, 0)]).netCashChange == 2 * amount
  {
    var row := Row(Credit, "revenue", "aircraft_sale", amount, 0);
    ReportCountsRows([row]);
    assert Total(Contribution, [row]) == Contribution(row);
    assert TimesCounted(row) == 2;
  }

  // ----- rows the engine writes

  // As stored: positive for a credit, negative for a debit.
  predicate Written(row: Row) {
    KnownRow(row) && if row.kind == Credit then row.amount > 0 else row.amount < 0
  }

  /** Every row the engine writes falls in exactly one bucket. */
  lemma WrittenRowsAreCountedOnce(row: Row)
    requires Written(row)
    ensures exists b :: b in BUCKETS && Falls(row, b) && forall b' :: b' in BUCKETS && Falls(row, b') ==> b' == b
    ensures Contribution(row) == row.amount
  {
    var b := if row.kind == Credit then
               if row.category == "revenue" then RevenueIn else if row.category == "investing" then SaleIn else LoanIn
             else if row.category == "investing" then CapitalOut
             else if row.category == "financing" then LoanOut
             else OperatingOut;
    assert Falls(row, b);
    assert TimesCounted(row) == 1;
  }

  /** The reported change in cash is the sum of the ledger, for any rows the engine can have written. */
  lemma {:induction false} ReportIsTheLedger(rows: seq<Row>)
    requires forall row :: row in rows ==> Written(row)
    ensures Report(rows).netCashChange == LedgerSum(rows)
    decreases rows
  {
    ReportCountsRows(rows);
    if rows != [] {
      ReportIsTheLedger(rows[..|rows| - 1]);
      ReportCountsRows(rows[..|rows| - 1]);
      WrittenRowsAreCountedOnce(rows[|rows| - 1]);
    }
  }

  lemma {:induction false} LedgerSumSplits(rows: seq<Row>, more: seq<Row>)
    ensures LedgerSum(rows + more) == LedgerSum(rows) + LedgerSum(more)
    decreases more
  {
    if more != [] {
      assert (rows + more)[..|rows + more| - 1] == rows + more[..|more| - 1];
      LedgerSumSplits(rows, more[..|more| - 1]);
    } else {
      assert rows + more == rows;
    }
  }

  /** The report over what any run of commands added to the ledger is the change in the bank balance. */
  lemma ReportReconcilesWithTheBank(a: Airline, calls: seq<Call>)
    requires AccountInv(a.account)
    ensures var a' := Run(a, calls);
            a.account.ledger <= a'.account.ledger
            && Report(a'.account.ledger[|a.account.ledger|..]).netCashChange == a'.account.balance - a.account.balance
  {
    RunKeepsAccount(a, calls);
    var a' := Run(a, calls);
    var added := a'.account.ledger[|a.account.ledger|..];
    assert a'.account.ledger == a.account.ledger + added;
    LedgerSumSplits(a.account.ledger, added);
    forall row | row in added
      ensures Written(row)
    {
      assert row in a'.account.ledger;
    }
    ReportIsTheLedger(added);
  }

  // ----- the income statement

  datatype Income = Income(
    ticketSales: int, cargoRevenue: int, fuel: int, crew: int, maintenance: int, airportFees: int,
    fleetLeasing: int, hangarRepairs: int)

  function TotalRevenue(i: Income): int {
    i.ticketSales + i.cargoRevenue
  }

  function TotalOperatingCosts(i: Income): int {
    i.fuel + i.crew + i.maintenance + i.airportFees + i.fleetLeasing + i.hangarRepairs
  }

  function NetIncome(i: Income): int {
    TotalRevenue(i) - TotalOperatingCosts(i)
  }

  datatype Line = TicketSales | Cargo | Fuel | Crew | Maintenance | AirportFees | Leasing | Repairs | NoLine

  // The one line a row is reported on; an unlabelled cost of sales counts as fuel.
  function LineOf(row: Row): Line {
    var sub := row.subcategory;
    if row.kind == Credit then
      if sub in TICKET then TicketSales else if sub in CARGO then Cargo else NoLine
    else if sub in FUEL || (row.category == "cogs" && sub == "") then Fuel
    else if sub in CREW then Crew
    else if sub in MAINTENANCE then Maintenance
    else if sub in AIRPORT_FEES then AirportFees
    else if sub in LEASE then Leasing
    else if sub in REPAIR then Repairs
    else NoLine
  }

  function On(line: Line): Row -> int {
    (row: Row) => if LineOf(row) == line then Size(row) else 0
  }

  function Statement(rows: seq<Row>): Income {
    Income(Total(On(TicketSales), rows), Total(On(Cargo), rows), Total(On(Fuel), rows), Total(On(Crew), rows),
           Total(On(Maintenance), rows), Total(On(AirportFees), rows), Total(On(Leasing), rows),
           Total(On(Repairs), rows))
  }

  lemma StatementOfOneMore(rows: seq<Row>, i: nat)
    requires i < |rows|
    ensures var s, s' := Statement(rows[..i]), Statement(rows[..i + 1]);
            match LineOf(rows[i])
            case TicketSales => s' == s.(ticketSales := s.ticketSales + Size(rows[i]))
            case Cargo => s' == s.(cargoRevenue := s.cargoRevenue + Size(rows[i]))
            case Fuel => s' == s.(fuel := s.fuel + Size(rows[i]))
            case Crew => s' == s.(crew := s.crew + Size(rows[i]))
            case Maintenance => s' == s.(maintenance := s.maintenance + Size(rows[i]))
            case AirportFees => s' == s.(airportFees := s.airportFees + Size(rows[i]))
            case Leasing => s' == s.(fleetLeasing := s.fleetLeasing + Size(rows[i]))
            case Repairs => s' == s.(hangarRepairs := s.hangarRepairs + Size(rows[i]))
            case NoLine => s' == s
  {
    assert rows[..i + 1][..i] == rows[..i];
  }

  method BuildIncomeStatement(rows: seq<Row>) returns (r: Income)
    ensures r == Statement(rows)
  {
    var ticketSales, cargoRevenue := 0, 0;
    for i := 0 to |rows|
      invariant ticketSales == Statement(rows[..i]).ticketSales
      invariant cargoRevenue == Statement(rows[..i]).cargoRevenue
    {
      StatementOfOneMore(rows, i);
      var row := rows[i];
      if row.kind != Credit {
        continue;
      }
      if row.subcategory in TICKET {
        ticketSales := ticketSales + Size(row);
      } else if row.subcategory in CARGO {
        cargoRevenue := cargoRevenue + Size(row);
      }
    }
    var fuel, crew, maintenance, airportFees, fleetLeasing, hangarRepairs := 0, 0, 0, 0, 0, 0;
    for i := 0 to |rows|
      invariant fuel == Statement(rows[..i]).fuel && crew == Statement(rows[..i]).crew
      invariant maintenance == Statement(rows[..i]).maintenance && airportFees == Statement(rows[..i]).airportFees
      invariant fleetLeasing == Statement(rows[..i]).fleetLeasing && hangarRepairs == Statement(rows[..i]).hangarRepairs
    {
      StatementOfOneMore(rows, i);
      var row := rows[i];
      if row.kind != Debit {
        continue;
      }
      var sub := row.subcategory;
      if sub in FUEL || (row.category == "cogs" && sub == "") {
        fuel := fuel + Size(row);
      } else if sub in CREW {
        crew := crew + Size(row);
      } else if sub in MAINTENANCE {
        maintenance := maintenance + Size(row);
      } else if sub in AIRPORT_FEES {
        airportFees := airportFees + Size(row);
      } else if sub in LEASE {
        fleetLeasing := fleetLeasing + Size(row);
      } else if sub in REPAIR {
        hangarRepairs := hangarRepairs + Size(row);
      }
    }
    assert rows[..|rows|] == rows;
    r := Income(ticketSales, cargoRevenue, fuel, crew, maintenance, airportFees, fleetLeasing, hangarRepairs);
  }

  // The statement has no line for the fee of ending a lease early; the cash flow counts it as operating.
  function TerminationFee(row: Row): int {
    if row.kind == Debit && row.subcategory == "lease_termination" then Size(row) else 0
  }

  function Operating(row: Row): int {
    In(RevenueIn)(row) - In(OperatingOut)(row)
  }

  function Earned(row: Row): int {
    if LineOf(row).NoLine? then 0 else Signed(row)
  }

  lemma {:induction false} NetIncomeCountsLines(rows: seq<Row>)
    ensures NetIncome(Statement(rows)) == Total(Earned, rows)
    decreases rows
  {
    if rows != [] {
      var n := |rows| - 1;
      NetIncomeCountsLines(rows[..n]);
      StatementOfOneMore(rows, n);
      assert rows[..n + 1] == rows;
    }
  }

  lemma WrittenRowEarns(row: Row)
    requires Written(row)
    ensures Operating(row) == Earned(row) - TerminationFee(row)
  {
  }

  /** On rows the engine writes, operating cash flow is net income less the fees for ending leases early. */
  lemma {:induction false} OperatingCashFlowIsNetIncome(rows: seq<Row>)
    requires forall row :: row in rows ==> Written(row)
    ensures Report(rows).operatingCashFlow == NetIncome(Statement(rows)) - Total(TerminationFee, rows)
    decreases rows
  {
    NetIncomeCountsLines(rows);
    if rows != [] {
      var shorter, last := rows[..|rows| - 1], rows[|rows| - 1];
      OperatingCashFlowIsNetIncome(shorter);
      NetIncomeCountsLines(shorter);
      WrittenRowEarns(last);
    }
  }
}
