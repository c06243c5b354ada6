/**
 Which rows each figure of the two reports adds up, without the reports' own way of sorting them
 (apps/web/src/lib/features/finance/domain/ifrs-report-builder.ts), and what a window's postings put on each line.
 */
module ReportLines {
  import opened Sequences
  import opened Money
  import opened Airline
  import opened AirlineRuns
  import opened CashFlow
  import E = Economics
  import W = Windows

  // The amounts of the rows of one kind with one of the subcategories.
  function SumOf(rows: seq<Row>, kind: Kind, subs: set<string>): int {
    if rows == [] then 0
    else
      var last := rows[|rows| - 1];
      SumOf(rows[..|rows| - 1], kind, subs) + if last.kind == kind && last.subcategory in subs then Size(last) else 0
  }

  // Debits of the cost of sales that say nothing more.
  function Unlabelled(rows: seq<Row>): int {
    if rows == [] then 0
    else
      var last := rows[|rows| - 1];
      Unlabelled(rows[..|rows| - 1])
      + if last.kind == Debit && last.category == "cogs" && last.subcategory == "" then Size(last) else 0
  }

  lemma {:induction false} LineIsItsRows(line: Line, rows: seq<Row>, kind: Kind, subs: set<string>)
    requires forall row: Row :: LineOf(row) == line <==> row.kind == kind && row.subcategory in subs
    ensures Total(On(line), rows) == SumOf(rows, kind, subs)
    decreases rows
  {
    if rows != [] {
      LineIsItsRows(line, rows[..|rows| - 1], kind, subs);
    }
  }

  lemma {:induction false} FuelIsItsRows(rows: seq<Row>)
    ensures Total(On(Fuel), rows) == SumOf(rows, Debit, {"fuel", "fuel_cost"}) + Unlabelled(rows)
    decreases rows
  {
    if rows != [] {
      FuelIsItsRows(rows[..|rows| - 1]);
    }
  }

  lemma RevenueLines(rows: seq<Row>)
    ensures Statement(rows).ticketSales == SumOf(rows, Credit, {"ticket_revenue", "route_revenue"})
    ensures Statement(rows).cargoRevenue == SumOf(rows, Credit, {"cargo_revenue"})
  {
    LineIsItsRows(TicketSales, rows, Credit, {"ticket_revenue", "route_revenue"});
    LineIsItsRows(Cargo, rows, Credit, {"cargo_revenue"});
  }

  lemma FlyingLines(rows: seq<Row>)
    ensures Statement(rows).fuel == SumOf(rows, Debit, {"fuel", "fuel_cost"}) + Unlabelled(rows)
    ensures Statement(rows).crew == SumOf(rows, Debit, {"crew", "crew_cost"})
    ensures Statement(rows).maintenance == SumOf(rows, Debit, {"maintenance", "maintenance_cost"})
  {
    FuelIsItsRows(rows);
    LineIsItsRows(Crew, rows, Debit, {"crew", "crew_cost"});
    LineIsItsRows(Maintenance, rows, Debit, {"maintenance", "maintenance_cost"});
  }

  lemma OtherLines(rows: seq<Row>)
    ensures Statement(rows).airportFees == SumOf(rows, Debit, {"airport_fees"})
    ensures Statement(rows).fleetLeasing
            == SumOf(rows, Debit, {"aircraft_lease", "aircraft_lease_idle", "aircraft_lease_init",
                                   "aircraft_lease_exit"})
    ensures Statement(rows).hangarRepairs == SumOf(rows, Debit, {"aircraft_repair"})
  {
    LineIsItsRows(AirportFees, rows, Debit, {"airport_fees"});
    LineIsItsRows(Leasing, rows, Debit, {"aircraft_lease", "aircraft_lease_idle", "aircraft_lease_init",
                                         "aircraft_lease_exit"});
    LineIsItsRows(Repairs, rows, Debit, {"aircraft_repair"});
  }

  /** Each line of the income statement adds up the rows of its own subcategories; fuel takes the unlabelled ones. */
  lemma EachLineIsItsRows(rows: seq<Row>)
    ensures Statement(rows)
            == Income(SumOf(rows, Credit, {"ticket_revenue", "route_revenue"}), SumOf(rows, Credit, {"cargo_revenue"}),
                      SumOf(rows, Debit, {"fuel", "fuel_cost"}) + Unlabelled(rows),
                      SumOf(rows, Debit, {"crew", "crew_cost"}),
                      SumOf(rows, Debit, {"maintenance", "maintenance_cost"}), SumOf(rows, Debit, {"airport_fees"}),
                      SumOf(rows, Debit, {"aircraft_lease", "aircraft_lease_idle", "aircraft_lease_init",
                                          "aircraft_lease_exit"}),
                      SumOf(rows, Debit, {"aircraft_repair"}))
  {
    RevenueLines(rows);
    FlyingLines(rows);
    OtherLines(rows);
  }

  // The amounts of the rows of one kind with one of the categories.
  function SumIn(rows: seq<Row>, kind: Kind, categories: set<string>): int {
    if rows == [] then 0
    else
      var last := rows[|rows| - 1];
      SumIn(rows[..|rows| - 1], kind, categories)
      + if last.kind == kind && last.category in categories then Size(last) else 0
  }

  lemma BucketsOfAWrittenRow(row: Row)
    requires Written(row)
    ensures Falls(row, RevenueIn) <==> row.kind == Credit && row.category == "revenue"
    ensures Falls(row, OperatingOut) <==> row.kind == Debit && row.category in {"cogs", "opex"}
    ensures Falls(row, CapitalOut) <==> row.kind == Debit && row.category == "investing"
    ensures Falls(row, SaleIn) <==> row.kind == Credit && row.category == "investing"
    ensures Falls(row, LoanIn) <==> row.kind == Credit && row.category == "financing"
    ensures Falls(row, LoanOut) <==> row.kind == Debit && row.category == "financing"
  {
  }

  /** On rows the engine writes, each figure of the cash-flow report adds up a ledger category's rows of one sign. */
  lemma {:induction false} EachFlowIsItsCategory(rows: seq<Row>)
    requires forall row :: row in rows ==> Written(row)
    ensures var r := Report(rows);
            && r.revenueInflows == SumIn(rows, Credit, {"revenue"})
            && r.operatingOutflows == SumIn(rows, Debit, {"cogs", "opex"})
            && r.capitalExpenditure == SumIn(rows, Debit, {"investing"})
            && r.aircraftSales == SumIn(rows, Credit, {"investing"})
            && r.loanProceeds == SumIn(rows, Credit, {"financing"})
            && r.loanRepayments == SumIn(rows, Debit, {"financing"})
            && r.operatingCashFlow == r.revenueInflows - r.operatingOutflows
            && r.investingCashFlow == r.aircraftSales - r.capitalExpenditure
            && r.financingCashFlow == r.loanProceeds - r.loanRepayments
    decreases rows
  {
    if rows != [] {
      EachFlowIsItsCategory(rows[..|rows| - 1]);
      BucketsOfAWrittenRow(rows[|rows| - 1]);
    }
  }

  /** And whatever the rows, investing and financing add up their own subcategories. */
  lemma {:induction false} EachFlowIsItsRows(rows: seq<Row>)
    ensures var r := Report(rows);
            && r.capitalExpenditure
               == SumOf(rows, Debit, {"aircraft_purchase", "aircraft_purchase_deposit", "aircraft_lease_deposit"})
            && r.aircraftSales == SumOf(rows, Credit, {"aircraft_sale"})
            && r.loanProceeds == SumOf(rows, Credit, {"loan_disbursement"})
            && r.loanRepayments == SumOf(rows, Debit, {"loan_payment", "loan_repayment", "financing_payment"})
    decreases rows
  {
    if rows != [] {
      EachFlowIsItsRows(rows[..|rows| - 1]);
    }
  }

  // ----- what a window puts on the statement

  // Whole cents; amounts that are not positive are not posted.
  function Cents(amount: real): int {
    if amount > 0.0 then Round(amount) else 0
  }

  // The line each item is meant for.
  function LineFor(item: Item): Line {
    match item
    case TicketRevenue => TicketSales
    case CargoRevenue => Cargo
    case FuelCost => Fuel
    case CrewCost => Crew
    case MaintenanceCost => Maintenance
    case LeaseCost => Leasing
    case IdleLease => Leasing
  }

  function PostedOn(line: Line, postings: seq<Posting>): int {
    if postings == [] then 0
    else
      var last := postings[|postings| - 1];
      PostedOn(line, postings[..|postings| - 1]) + if LineFor(last.item) == line then Cents(last.amount) else 0
  }

  // The account after a posting.
  predicate PostedOnce(before: Airline, after: Airline, p: Posting, fails: bool) {
    if p.amount <= 0.0 then after == before
    else ApplyTx(before, p.amount, KindOf(p.item), KindOf(p.item) == Debit, CategoryOf(p.item), SubcategoryOf(p.item),
                 fails) == Some(after)
  }

  function RowOf(p: Posting, balanceAfter: int): Row {
    Row(KindOf(p.item), CategoryOf(p.item), SubcategoryOf(p.item),
        if KindOf(p.item) == Credit then Round(p.amount) else -Round(p.amount), balanceAfter)
  }

  function RowsOf(p: Posting, balanceAfter: int): seq<Row> {
    if Cents(p.amount) > 0 then [RowOf(p, balanceAfter)] else []
  }

  lemma OnePosting(before: Airline, after: Airline, p: Posting, fails: bool)
    requires PostedOnce(before, after, p, fails)
    ensures after.account.ledger == before.account.ledger + RowsOf(p, after.account.balance)
  {
    RoundWhole(0);
    if p.amount > 0.0 {
      RoundKeepsOrder(0.0, p.amount);
    }
  }

  lemma RowIsOnItsLine(line: Line, p: Posting, balanceAfter: int)
    requires 0 < Cents(p.amount)
    ensures On(line)(RowOf(p, balanceAfter)) == if LineFor(p.item) == line then Cents(p.amount) else 0
  {
  }

  // The rows written since.
  function Added(before: Account, after: Account): seq<Row> {
    if before.ledger <= after.ledger then after.ledger[|before.ledger|..] else []
  }

  // The rows added since are on the lines their postings are meant for.
  ghost predicate OnTheirLines(before: Account, after: Account, postings: seq<Posting>) {
    && before.ledger <= after.ledger
    && forall line :: Total(On(line), Added(before, after)) == PostedOn(line, postings)
  }

  lemma NothingPosted(account: Account)
    ensures OnTheirLines(account, account, [])
  {
    assert Added(account, account) == [];
  }

  lemma LastPostingReachesItsLine(first: Account, before: Account, after: Account, shorter: seq<Posting>, p: Posting)
    requires OnTheirLines(first, before, shorter) && after.ledger == before.ledger + RowsOf(p, after.balance)
    ensures OnTheirLines(first, after, shorter + [p])
  {
    var rows := RowsOf(p, after.balance);
    assert Added(first, after) == Added(first, before) + rows;
    forall line
      ensures Total(On(line), Added(first, after)) == PostedOn(line, shorter + [p])
    {
      assert (shorter + [p])[..|shorter|] == shorter;
      if Cents(p.amount) > 0 {
        RowIsOnItsLine(line, p, after.balance);
        TotalOfAppend(On(line), Added(first, before), rows[0]);
      } else {
        NoCents(p.amount);
        assert Added(first, after) == Added(first, before);
      }
    }
  }

  lemma NoCents(amount: real)
    ensures 0 <= Cents(amount)
  {
    RoundWhole(0);
    if amount > 0.0 {
      RoundKeepsOrder(0.0, amount);
    }
  }

  lemma PostIsOneMore(a: Airline, postings: seq<Posting>, f: Faults)
    requires postings != [] && Post(a, postings, f).Some?
    ensures Post(a, postings[..|postings| - 1], f).Some?
    ensures PostedOnce(Post(a, postings[..|postings| - 1], f).value, Post(a, postings, f).value,
                       postings[|postings| - 1], f.ledger)
  {
  }

  /** Whatever is posted, by whatever windows, each line of the statement over it is what the items of its kind were
      posted for. */
  lemma {:induction false} PostingsReachTheirLines(a: Airline, postings: seq<Posting>, f: Faults)
    requires Post(a, postings, f).Some?
    ensures OnTheirLines(a.account, Post(a, postings, f).value.account, postings)
    decreases postings
  {
    if postings == [] {
      NothingPosted(a.account);
    } else {
      var shorter, p := postings[..|postings| - 1], postings[|postings| - 1];
      PostIsOneMore(a, postings, f);
      PostingsReachTheirLines(a, shorter, f);
      assert postings == shorter + [p];
      var before, after := Post(a, shorter, f).value, Post(a, postings, f).value;
      OnePosting(before, after, p, f.ledger);
      LastPostingReachesItsLine(a.account, before.account, after.account, shorter, p);
    }
  }

  lemma PostedForARoute(w: E.Figures, line: Line)
    ensures PostedOn(line, W.PostingsOf(w))
            == match line
               case TicketSales => Cents(w.revenue)
               case Cargo => Cents(w.cargo)
               case Fuel => Cents(w.fuel)
               case Crew => Cents(w.crew)
               case Maintenance => Cents(w.maintenance)
               case Leasing => Cents(w.lease)
               case _ => 0
  {
    var all := W.PostingsOf(w);
    assert all[..0] == [] && all[..6] == all;
    for i := 0 to 6
      invariant PostedOn(line, all[..i])
                == (if i > 0 && line == TicketSales then Cents(w.revenue) else 0)
                   + (if i > 1 && line == Cargo then Cents(w.cargo) else 0)
                   + (if i > 2 && line == Fuel then Cents(w.fuel) else 0)
                   + (if i > 3 && line == Crew then Cents(w.crew) else 0)
                   + (if i > 4 && line == Maintenance then Cents(w.maintenance) else 0)
                   + (if i > 5 && line == Leasing then Cents(w.lease) else 0)
    {
      assert all[..i + 1][..i] == all[..i];
    }
  }

  /** A route's window puts each of its figures, to the cent, on that figure's line and on no other. */
  lemma RouteReachesItsLines(a: Airline, w: E.Figures, f: Faults)
    requires Post(a, W.PostingsOf(w), f).Some?
    ensures a.account.ledger <= Post(a, W.PostingsOf(w), f).value.account.ledger
    ensures Statement(Added(a.account, Post(a, W.PostingsOf(w), f).value.account))
            == Income(Cents(w.revenue), Cents(w.cargo), Cents(w.fuel), Cents(w.crew), Cents(w.maintenance), 0,
                      Cents(w.lease), 0)
  {
    PostingsReachTheirLines(a, W.PostingsOf(w), f);
    PostedForARoute(w, TicketSales);
    PostedForARoute(w, Cargo);
    PostedForARoute(w, Fuel);
    PostedForARoute(w, Crew);
    PostedForARoute(w, Maintenance);
    PostedForARoute(w, AirportFees);
    PostedForARoute(w, Leasing);
    PostedForARoute(w, Repairs);
  }
}
