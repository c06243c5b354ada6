/**
 Billing a stretch of time in one window or in several (apps/api/internal/engine/simulation.go:297-305, 412-427,
 474-487), while the same aircraft keeps flying the same schedule.
 */
module Windows {
  import opened Sequences
  import opened Money
  import opened Airline
  import opened AirlineRuns
  import E = Economics

  function Length(pieces: seq<real>): real {
    if pieces == [] then 0.0 else Length(pieces[..|pieces| - 1]) + pieces[|pieces| - 1]
  }

  // The share of a week billed for the pieces one by one.
  function Fractions(pieces: seq<real>): real {
    if pieces == [] then 0.0 else Fractions(pieces[..|pieces| - 1]) + E.Fraction(pieces[|pieces| - 1])
  }

  ghost predicate Forward(pieces: seq<real>) {
    forall i :: 0 <= i < |pieces| ==> pieces[i] > 0.0
  }

  lemma {:induction false} LengthIsPositive(pieces: seq<real>)
    requires Forward(pieces)
    ensures 0.0 <= Length(pieces) && (pieces != [] ==> 0.0 < Length(pieces) && 0.0 < Fractions(pieces))
    decreases pieces
  {
    if pieces != [] {
      LengthIsPositive(pieces[..|pieces| - 1]);
    }
  }

  lemma {:induction false} ShortPiecesAddUp(pieces: seq<real>)
    requires Forward(pieces) && Length(pieces) <= 7.0
    ensures Fractions(pieces) == E.Fraction(Length(pieces)) == Length(pieces) / 7.0
    decreases pieces
  {
    if pieces != [] {
      LengthIsPositive(pieces[..|pieces| - 1]);
      ShortPiecesAddUp(pieces[..|pieces| - 1]);
    }
  }

  lemma {:induction false} LongPiecesBillMore(pieces: seq<real>)
    requires Forward(pieces) && |pieces| > 1 && Length(pieces) > 7.0
    ensures Fractions(pieces) > 1.0
    decreases pieces
  {
    var before := pieces[..|pieces| - 1];
    LengthIsPositive(before);
    if Length(before) <= 7.0 {
      ShortPiecesAddUp(before);
    } else if |before| > 1 {
      LongPiecesBillMore(before);
    } else {
      assert Length(before[..0]) == 0.0 && Fractions(before[..0]) == 0.0;
    }
  }

  /** The pieces are billed the same share of a week as the whole exactly when the whole is at most a week or is
      in one piece; a window of a week or longer is billed one week. */
  lemma PiecesAddUpIff(pieces: seq<real>)
    requires Forward(pieces)
    ensures Fractions(pieces) == E.Fraction(Length(pieces)) <==> Length(pieces) <= 7.0 || |pieces| <= 1
    ensures Length(pieces) >= 7.0 ==> E.Fraction(Length(pieces)) == 1.0
  {
    if Length(pieces) <= 7.0 {
      ShortPiecesAddUp(pieces);
    } else if |pieces| > 1 {
      LongPiecesBillMore(pieces);
    } else {
      assert pieces == [pieces[0]];
      assert Length(pieces[..0]) == 0.0 && Fractions(pieces[..0]) == 0.0;
    }
  }

  // ----- what the pieces bill

  // What one aircraft's schedule is worth while it does not change.
  datatype Schedule = Schedule(r: E.Route, p: E.Plane, c: E.Config, e: E.Events)

  function Flies(s: Schedule): bool {
    s.r.distance > 0.0 && E.Flies(s.r, s.p)
  }

  function Worn(s: Schedule, condition: real): E.Plane {
    s.p.(condition := condition)
  }

  function Plus(a: E.Figures, b: E.Figures): E.Figures {
    E.Figures(a.revenue + b.revenue, a.cargo + b.cargo, a.fuel + b.fuel, a.crew + b.crew, a.maintenance + b.maintenance,
              a.lease + b.lease, b.condition)
  }

  // The pieces one after another, each starting in the condition the last one left.
  function Flown(s: Schedule, pieces: seq<real>): E.Figures
    requires Flies(s)
  {
    if pieces == [] then E.Figures(0.0, 0.0, 0.0, 0.0, 0.0, 0.0, s.p.condition)
    else
      var before := Flown(s, pieces[..|pieces| - 1]);
      Plus(before, E.Tick(s.r, Worn(s, before.condition), s.c, s.e, pieces[|pieces| - 1]).value)
  }

  // Per full week: revenue, its cargo, the three operating costs and the net wear; and the rent per day.
  datatype Rates = Rates(revenue: real, cargo: real, fuel: real, crew: real, maintenance: real, lease: real, wear: real)

  function At(k: Rates, fraction: real, days: real, condition: real): E.Figures {
    E.Figures(E.Share(k.revenue, fraction), E.Share(k.cargo, fraction), E.Share(k.fuel, fraction),
              E.Share(k.crew, fraction), E.Share(k.maintenance, fraction), E.Share(k.lease, days),
              E.ConditionAfter(condition, E.Share(k.wear, fraction)))
  }

  function RatesOf(s: Schedule): Rates
    requires Flies(s)
  {
    var flights := E.Flown(s.r.flights, E.WeeklyCap(s.r, s.p, s.c));
    var sales := E.Sales(s.r, s.p, s.c, flights as real, s.e.demand, s.e.capacity);
    RatesFor(s, flights, E.FlightHours(s.r.distance, s.p), sales, E.CrewHour(s.p, s.c))
  }

  function RatesFor(s: Schedule, flights: nat, hours: real, sales: real, crewHour: real): Rates
    requires s.p.speed > 0.0
  {
    var wear := (if s.p.leased then s.c.leasedWear else s.c.ownedWear) + s.r.distance * 0.0001;
    Rates(sales * 7.0, sales * 7.0 * s.c.cargoPct,
          flights as real * s.r.distance * s.p.fuelBurn * s.c.fuelPrice * s.e.fuel,
          flights as real * hours * crewHour,
          flights as real * s.r.distance * s.p.maintenanceHour * s.e.maintenance / s.p.speed,
          if s.p.leased then s.p.leaseMonth / 30.0 else 0.0,
          E.NetDamage(E.GrossDamage(wear, flights, 1.0), s.c.autoRepair))
  }

  lemma NetScales(gross: real, repair: real, fraction: real)
    requires 0.0 <= fraction
    ensures E.NetDamage(gross * fraction, repair) == E.NetDamage(gross, repair) * fraction
  {
    var net := gross - gross * repair;
    assert gross * fraction - gross * fraction * repair == net * fraction;
    if net >= 0.0 {
      assert net * fraction >= 0.0;
    } else {
      assert (-net) * fraction >= 0.0;
    }
  }

  lemma WearScales(wear: real, flights: nat, repair: real, fraction: real)
    requires 0.0 <= fraction
    ensures E.NetDamage(E.GrossDamage(wear, flights, fraction), repair)
            == E.Share(E.NetDamage(E.GrossDamage(wear, flights, 1.0), repair), fraction)
  {
    NetScales(wear * flights as real, repair, fraction);
  }

  lemma Reorder(x: real, fraction: real, y: real)
    ensures E.Share(x, fraction) * y == E.Share(x * y, fraction)
  {
  }

  lemma ByTheDay(x: real, days: real)
    ensures x * (days / 30.0) == E.Share(x / 30.0, days)
  {
  }

  lemma WearAtRates(s: Schedule, condition: real, elapsed: real, flights: nat, hours: real, sales: real, crewHour: real)
    requires Flies(s) && 0.0 <= elapsed
    ensures E.Billed(s.r, Worn(s, condition), s.c, s.e, elapsed, flights, hours, sales, crewHour).condition
            == At(RatesFor(s, flights, hours, sales, crewHour), E.Fraction(elapsed), elapsed, condition).condition
  {
    var wear := (if s.p.leased then s.c.leasedWear else s.c.ownedWear) + s.r.distance * 0.0001;
    WearScales(wear, flights, s.c.autoRepair, E.Fraction(elapsed));
  }

  lemma IncomeAtRates(s: Schedule, condition: real, elapsed: real,
                      flights: nat, hours: real, sales: real, crewHour: real)
    requires Flies(s) && 0.0 <= elapsed
    ensures var billed := E.Billed(s.r, Worn(s, condition), s.c, s.e, elapsed, flights, hours, sales, crewHour);
            var shared := At(RatesFor(s, flights, hours, sales, crewHour), E.Fraction(elapsed), elapsed, condition);
            billed.revenue == shared.revenue && billed.cargo == shared.cargo && billed.lease == shared.lease
  {
    Reorder(sales * 7.0, E.Fraction(elapsed), s.c.cargoPct);
    ByTheDay(s.p.leaseMonth, elapsed);
  }

  lemma FuelAtRates(s: Schedule, condition: real, elapsed: real, flights: nat, hours: real, sales: real, crewHour: real)
    requires Flies(s) && 0.0 <= elapsed
    ensures E.Billed(s.r, Worn(s, condition), s.c, s.e, elapsed, flights, hours, sales, crewHour).fuel
            == At(RatesFor(s, flights, hours, sales, crewHour), E.Fraction(elapsed), elapsed, condition).fuel
  {
  }

  lemma CrewAtRates(s: Schedule, condition: real, elapsed: real, flights: nat, hours: real, sales: real, crewHour: real)
    requires Flies(s) && 0.0 <= elapsed
    ensures E.Billed(s.r, Worn(s, condition), s.c, s.e, elapsed, flights, hours, sales, crewHour).crew
            == At(RatesFor(s, flights, hours, sales, crewHour), E.Fraction(elapsed), elapsed, condition).crew
  {
  }

  lemma MaintenanceAtRates(s: Schedule, condition: real, elapsed: real,
                           flights: nat, hours: real, sales: real, crewHour: real)
    requires Flies(s) && 0.0 <= elapsed
    ensures E.Billed(s.r, Worn(s, condition), s.c, s.e, elapsed, flights, hours, sales, crewHour).maintenance
            == At(RatesFor(s, flights, hours, sales, crewHour), E.Fraction(elapsed), elapsed, condition).maintenance
  {
  }

  lemma BilledAtRates(s: Schedule, condition: real, elapsed: real,
                      flights: nat, hours: real, sales: real, crewHour: real)
    requires Flies(s) && 0.0 <= elapsed
    ensures E.Billed(s.r, Worn(s, condition), s.c, s.e, elapsed, flights, hours, sales, crewHour)
            == At(RatesFor(s, flights, hours, sales, crewHour), E.Fraction(elapsed), elapsed, condition)
  {
    WearAtRates(s, condition, elapsed, flights, hours, sales, crewHour);
    IncomeAtRates(s, condition, elapsed, flights, hours, sales, crewHour);
    FuelAtRates(s, condition, elapsed, flights, hours, sales, crewHour);
    CrewAtRates(s, condition, elapsed, flights, hours, sales, crewHour);
    MaintenanceAtRates(s, condition, elapsed, flights, hours, sales, crewHour);
  }

  lemma WearLeavesSchedule(s: Schedule, condition: real, flights: E.NotBelowZero)
    ensures E.Sales(s.r, Worn(s, condition), s.c, flights, s.e.demand, s.e.capacity)
            == E.Sales(s.r, s.p, s.c, flights, s.e.demand, s.e.capacity)
  {
  }

  // A window is its share of the weekly rates, whatever state the aircraft is in.
  ghost predicate AtRates(s: Schedule, k: Rates) {
    forall condition: real, elapsed: real :: 0.0 <= elapsed ==>
      E.Tick(s.r, Worn(s, condition), s.c, s.e, elapsed) == Some(At(k, E.Fraction(elapsed), elapsed, condition))
  }

  lemma OneTickAtRates(s: Schedule, condition: real, elapsed: real)
    requires Flies(s) && 0.0 <= elapsed
    ensures E.Tick(s.r, Worn(s, condition), s.c, s.e, elapsed)
            == Some(At(RatesOf(s), E.Fraction(elapsed), elapsed, condition))
  {
    var flights := E.Flown(s.r.flights, E.WeeklyCap(s.r, s.p, s.c));
    WearLeavesSchedule(s, condition, flights as real);
    BilledAtRates(s, condition, elapsed, flights, E.FlightHours(s.r.distance, s.p),
                  E.Sales(s.r, s.p, s.c, flights as real, s.e.demand, s.e.capacity), E.CrewHour(s.p, s.c));
  }

  lemma TickAtRates(s: Schedule)
    requires Flies(s)
    ensures AtRates(s, RatesOf(s)) && 0.0 <= RatesOf(s).wear
  {
    forall condition: real, elapsed: real | 0.0 <= elapsed
      ensures E.Tick(s.r, Worn(s, condition), s.c, s.e, elapsed)
              == Some(At(RatesOf(s), E.Fraction(elapsed), elapsed, condition))
    {
      OneTickAtRates(s, condition, elapsed);
    }
  }

  lemma Distribute(k: real, x: real, y: real)
    ensures E.Share(k, x) + E.Share(k, y) == E.Share(k, x + y)
  {
  }

  lemma PlusAtRates(k: Rates, f: real, days: real, f': real, days': real, condition: real)
    requires 0.0 <= k.wear && 0.0 <= f && 0.0 <= f'
    ensures var before := At(k, f, days, condition);
            Plus(before, At(k, f', days', before.condition)) == At(k, f + f', days + days', condition)
  {
    Distribute(k.revenue, f, f');
    Distribute(k.cargo, f, f');
    Distribute(k.fuel, f, f');
    Distribute(k.crew, f, f');
    Distribute(k.maintenance, f, f');
    Distribute(k.lease, days, days');
    Distribute(k.wear, f, f');
    assert 0.0 <= E.Share(k.wear, f) && 0.0 <= E.Share(k.wear, f');
  }

  /** However the time is cut, what is billed is the weekly rates times the shares of a week of the pieces, rent
      is by the day, and wear adds up until nothing is left. */
  lemma {:induction false} PiecesAtRates(s: Schedule, k: Rates, pieces: seq<real>)
    requires Flies(s) && AtRates(s, k) && 0.0 <= k.wear && Forward(pieces) && 0.0 <= s.p.condition
    ensures Flown(s, pieces) == At(k, Fractions(pieces), Length(pieces), s.p.condition)
    decreases pieces
  {
    if pieces != [] {
      var shorter, last := pieces[..|pieces| - 1], pieces[|pieces| - 1];
      PiecesAtRates(s, k, shorter);
      LengthIsPositive(shorter);
      PlusAtRates(k, Fractions(shorter), Length(shorter), E.Fraction(last), last, s.p.condition);
    }
  }

  lemma WholeAtRates(s: Schedule, k: Rates, elapsed: real)
    requires AtRates(s, k) && 0.0 <= elapsed
    ensures E.Tick(s.r, s.p, s.c, s.e, elapsed) == Some(At(k, E.Fraction(elapsed), elapsed, s.p.condition))
  {
    assert Worn(s, s.p.condition) == s.p;
  }

  /** Cutting a stretch of at most a week into any pieces changes no figure: revenue, cargo, operating costs,
      rent and wear are those of the one window. */
  lemma SplittingIsInvisible(s: Schedule, pieces: seq<real>)
    requires Flies(s) && Forward(pieces) && 0.0 <= s.p.condition && Length(pieces) <= 7.0
    ensures Some(Flown(s, pieces)) == E.Tick(s.r, s.p, s.c, s.e, Length(pieces))
  {
    var k := RatesOf(s);
    TickAtRates(s);
    PiecesAtRates(s, k, pieces);
    PiecesAddUpIff(pieces);
    LengthIsPositive(pieces);
    WholeAtRates(s, k, Length(pieces));
  }

  lemma SplittingAtRates(s: Schedule, k: Rates, pieces: seq<real>)
    requires Flies(s) && AtRates(s, k) && 0.0 <= k.wear && Forward(pieces) && 0.0 <= s.p.condition
    ensures var whole := E.Tick(s.r, s.p, s.c, s.e, Length(pieces));
            && whole.Some? && Flown(s, pieces).lease == whole.value.lease
            && (k.revenue != 0.0 ==>
                  (Flown(s, pieces).revenue == whole.value.revenue <==> Length(pieces) <= 7.0 || |pieces| <= 1))
    ensures E.Tick(s.r, s.p, s.c, s.e, 7.0).Some? && E.Tick(s.r, s.p, s.c, s.e, 7.0).value.revenue == k.revenue
  {
    PiecesAtRates(s, k, pieces);
    PiecesAddUpIff(pieces);
    LengthIsPositive(pieces);
    WholeAtRates(s, k, Length(pieces));
    WholeAtRates(s, k, 7.0);
    CompareAt(k, Fractions(pieces), E.Fraction(Length(pieces)), Length(pieces), s.p.condition);
  }

  lemma CompareAt(k: Rates, f: real, g: real, days: real, condition: real)
    ensures At(k, f, days, condition).lease == At(k, g, days, condition).lease
    ensures k.revenue != 0.0 ==> (At(k, f, days, condition).revenue == At(k, g, days, condition).revenue <==> f == g)
    ensures At(k, E.Fraction(7.0), 7.0, condition).revenue == k.revenue
  {
    if k.revenue != 0.0 {
      SameMultiple(k.revenue, f, g);
    }
    assert E.Fraction(7.0) == 1.0;
  }

  /** Of any length at all, rent never depends on how it is cut; the revenue of a route that earns anything does
      exactly when it is more than a week in more than one piece. */
  lemma SplittingShowsInRevenueIff(s: Schedule, pieces: seq<real>)
    requires Flies(s) && Forward(pieces) && 0.0 <= s.p.condition
    ensures E.Tick(s.r, s.p, s.c, s.e, 7.0).Some?
    ensures var whole := E.Tick(s.r, s.p, s.c, s.e, Length(pieces));
            && whole.Some? && Flown(s, pieces).lease == whole.value.lease
            && (E.Tick(s.r, s.p, s.c, s.e, 7.0).value.revenue != 0.0 ==>
                  (Flown(s, pieces).revenue == whole.value.revenue <==> Length(pieces) <= 7.0 || |pieces| <= 1))
  {
    TickAtRates(s);
    SplittingAtRates(s, RatesOf(s), pieces);
  }

  lemma SameMultiple(k: real, x: real, y: real)
    requires k != 0.0
    ensures E.Share(k, x) == E.Share(k, y) <==> x == y
  {
    assert k * x - k * y == k * (x - y);
  }

  // Flights the digest reports for a window.
  function FlightsRun(flights: nat, elapsed: real): real {
    E.Share(flights as real, elapsed / 7.0)
  }

  function FlightsOver(flights: nat, pieces: seq<real>): real {
    if pieces == [] then 0.0
    else FlightsOver(flights, pieces[..|pieces| - 1]) + FlightsRun(flights, pieces[|pieces| - 1])
  }

  /** Reported flights add up over any pieces of any length, and are the week's for a week. */
  lemma {:induction false} FlightsAddUp(flights: nat, pieces: seq<real>)
    ensures FlightsOver(flights, pieces) == FlightsRun(flights, Length(pieces))
    ensures FlightsRun(flights, 7.0) == flights as real
    decreases pieces
  {
    if pieces != [] {
      var shorter, last := pieces[..|pieces| - 1], pieces[|pieces| - 1];
      FlightsAddUp(flights, shorter);
      Distribute(flights as real, Length(shorter) / 7.0, last / 7.0);
    }
  }

  // ----- what rounding does

  // The exact change in cash that the positive amounts stand for.
  function Exact(postings: seq<Posting>): real {
    if postings == [] then 0.0
    else
      Exact(postings[..|postings| - 1]) + Worth(postings[|postings| - 1])
  }

  function Positive(x: real): real {
    MaxReal(0.0, x)
  }

  // An amount that is not positive is not posted.
  function Worth(p: Posting): real {
    if KindOf(p.item) == Credit then Positive(p.amount) else -Positive(p.amount)
  }

  /** Posting never moves the balance by more than half a cent per posting away from the exact amounts. */
  lemma {:induction false} PostedIsCloseToExact(a: Airline, postings: seq<Posting>, f: Faults)
    requires Post(a, postings, f).Some?
    ensures var moved := (Post(a, postings, f).value.account.balance - a.account.balance) as real;
            -0.5 * |postings| as real <= moved - Exact(postings) <= 0.5 * |postings| as real
    decreases postings
  {
    if postings != [] {
      PostedIsCloseToExact(a, postings[..|postings| - 1], f);
      RoundIsNearest(postings[|postings| - 1].amount);
    }
  }

  // ----- cutting a window and rounding, together

  // What a window posts for one route, in this order.
  function PostingsOf(w: E.Figures): seq<Posting> {
    [Posting(TicketRevenue, w.revenue), Posting(CargoRevenue, w.cargo), Posting(FuelCost, w.fuel),
     Posting(CrewCost, w.crew), Posting(MaintenanceCost, w.maintenance), Posting(LeaseCost, w.lease)]
  }

  // The rows of one route, if it can be flown, in the order they are posted.
  function RowsOf(s: Schedule, elapsed: real): seq<Posting> {
    var w := E.Tick(s.r, s.p, s.c, s.e, elapsed);
    if w.Some? then PostingsOf(w.value) else []
  }

  function RoutePostings(schedules: seq<Schedule>, elapsed: real): seq<Posting> {
    if schedules == [] then []
    else RoutePostings(schedules[..|schedules| - 1], elapsed) + RowsOf(schedules[|schedules| - 1], elapsed)
  }

  function WindowPostings(schedules: seq<Schedule>, elapsed: real, idleLease: real): seq<Posting> {
    RoutePostings(schedules, elapsed) + [Posting(IdleLease, idleLease)]
  }

  function Cash(w: E.Figures): real {
    Positive(w.revenue) + Positive(w.cargo) - Positive(w.fuel) - Positive(w.crew) - Positive(w.maintenance)
        - Positive(w.lease)
  }

  function CashAt(k: Rates, fraction: real, days: real): real {
    E.Share(Positive(k.revenue) + Positive(k.cargo) - Positive(k.fuel) - Positive(k.crew) - Positive(k.maintenance),
            fraction)
    - E.Share(Positive(k.lease), days)
  }

  lemma PositiveScales(x: real, f: real)
    requires 0.0 <= f
    ensures Positive(E.Share(x, f)) == E.Share(Positive(x), f)
  {
    if x >= 0.0 {
      assert x * f >= 0.0;
    } else {
      assert (-x) * f >= 0.0;
    }
  }

  lemma CashAtRates(k: Rates, f: real, days: real, condition: real)
    requires 0.0 <= f && 0.0 <= days
    ensures Cash(At(k, f, days, condition)) == CashAt(k, f, days)
  {
    PositiveScales(k.revenue, f);
    PositiveScales(k.cargo, f);
    PositiveScales(k.fuel, f);
    PositiveScales(k.crew, f);
    PositiveScales(k.maintenance, f);
    PositiveScales(k.lease, days);
    SumScales(Positive(k.revenue), Positive(k.cargo), Positive(k.fuel), Positive(k.crew), Positive(k.maintenance), f);
  }

  lemma SumScales(a: real, b: real, c: real, d: real, e: real, f: real)
    ensures E.Share(a, f) + E.Share(b, f) - E.Share(c, f) - E.Share(d, f) - E.Share(e, f)
            == E.Share(a + b - c - d - e, f)
  {
  }

  lemma CashAdds(k: Rates, f: real, days: real, f': real, days': real)
    ensures CashAt(k, f, days) + CashAt(k, f', days') == CashAt(k, f + f', days + days')
  {
    Distribute(Positive(k.revenue) + Positive(k.cargo) - Positive(k.fuel) - Positive(k.crew)
               - Positive(k.maintenance), f, f');
    Distribute(Positive(k.lease), days, days');
  }

  lemma {:induction false} ExactAppends(postings: seq<Posting>, more: seq<Posting>)
    ensures Exact(postings + more) == Exact(postings) + Exact(more)
    decreases more
  {
    if more == [] {
      assert postings + more == postings;
    } else {
      assert (postings + more)[..|postings + more| - 1] == postings + more[..|more| - 1];
      ExactAppends(postings, more[..|more| - 1]);
    }
  }

  lemma ExactOfWindow(w: E.Figures)
    ensures Exact(PostingsOf(w)) == Cash(w)
  {
    var all := PostingsOf(w);
    assert all[..0] == [] && all[..6] == all;
    for i := 0 to 6
      invariant Exact(all[..i]) == Sum(w, i)
    {
      assert all[..i + 1][..i] == all[..i];
    }
  }

  // Of the first few of a window's postings.
  function Sum(w: E.Figures, n: nat): real {
    (if n > 0 then Positive(w.revenue) else 0.0) + (if n > 1 then Positive(w.cargo) else 0.0)
    - (if n > 2 then Positive(w.fuel) else 0.0) - (if n > 3 then Positive(w.crew) else 0.0)
    - (if n > 4 then Positive(w.maintenance) else 0.0) - (if n > 5 then Positive(w.lease) else 0.0)
  }

  lemma OnePiece(x: real)
    ensures Length([x]) == x && Fractions([x]) == E.Fraction(x)
  {
    assert [x][..0] == [];
  }

  // A schedule whose aircraft has flown the pieces already.
  function WornBy(s: Schedule, pieces: seq<real>): Schedule {
    if Flies(s) then s.(p := Worn(s, Flown(s, pieces).condition)) else s
  }

  function FleetWorn(fleet: seq<Schedule>, pieces: seq<real>): seq<Schedule> {
    seq(|fleet|, i requires 0 <= i < |fleet| => WornBy(fleet[i], pieces))
  }

  // All the rows of all the windows; `idleRent` is the monthly rent of the aircraft on no active route.
  function FleetPostings(fleet: seq<Schedule>, idleRent: real, pieces: seq<real>): seq<Posting> {
    if pieces == [] then []
    else
      var shorter, last := pieces[..|pieces| - 1], pieces[|pieces| - 1];
      FleetPostings(fleet, idleRent, shorter)
      + WindowPostings(FleetWorn(fleet, shorter), last, E.Share(idleRent, last / 30.0))
  }

  lemma RowsAtRates(s: Schedule, k: Rates, pieces: seq<real>, elapsed: real)
    requires Flies(s) && AtRates(s, k) && 0.0 <= elapsed
    ensures Exact(RowsOf(WornBy(s, pieces), elapsed)) == CashAt(k, E.Fraction(elapsed), elapsed)
    ensures |RowsOf(WornBy(s, pieces), elapsed)| == 6
  {
    var condition := Flown(s, pieces).condition;
    var w := At(k, E.Fraction(elapsed), elapsed, condition);
    assert E.Tick(s.r, Worn(s, condition), s.c, s.e, elapsed) == Some(w);
    ExactOfWindow(w);
    CashAtRates(k, E.Fraction(elapsed), elapsed, condition);
  }

  // What one schedule brings in, nothing if it cannot be flown.
  function Brings(s: Schedule, fraction: real, days: real): real {
    if Flies(s) then CashAt(RatesOf(s), fraction, days) else 0.0
  }

  function FleetBrings(fleet: seq<Schedule>, fraction: real, days: real): real {
    if fleet == [] then 0.0
    else FleetBrings(fleet[..|fleet| - 1], fraction, days) + Brings(fleet[|fleet| - 1], fraction, days)
  }

  lemma RowsBring(s: Schedule, pieces: seq<real>, elapsed: real)
    requires 0.0 <= elapsed
    ensures Exact(RowsOf(WornBy(s, pieces), elapsed)) == Brings(s, E.Fraction(elapsed), elapsed)
    ensures |RowsOf(WornBy(s, pieces), elapsed)| <= 6
  {
    if Flies(s) {
      TickAtRates(s);
      RowsAtRates(s, RatesOf(s), pieces, elapsed);
    }
  }

  lemma {:induction false} RoutesBring(fleet: seq<Schedule>, pieces: seq<real>, elapsed: real)
    requires 0.0 <= elapsed
    ensures Exact(RoutePostings(FleetWorn(fleet, pieces), elapsed)) == FleetBrings(fleet, E.Fraction(elapsed), elapsed)
    ensures |RoutePostings(FleetWorn(fleet, pieces), elapsed)| <= 6 * |fleet|
    decreases fleet
  {
    if fleet != [] {
      var shorter, s := fleet[..|fleet| - 1], fleet[|fleet| - 1];
      RoutesBring(shorter, pieces, elapsed);
      RowsBring(s, pieces, elapsed);
      var worn := FleetWorn(fleet, pieces);
      assert worn[..|worn| - 1] == FleetWorn(shorter, pieces);
      ExactAppends(RoutePostings(FleetWorn(shorter, pieces), elapsed), RowsOf(WornBy(s, pieces), elapsed));
    }
  }

  lemma BringsAdds(s: Schedule, f: real, days: real, f': real, days': real)
    ensures Brings(s, f, days) + Brings(s, f', days') == Brings(s, f + f', days + days')
  {
    if Flies(s) {
      CashAdds(RatesOf(s), f, days, f', days');
    }
  }

  lemma {:induction false} FleetBringsAdds(fleet: seq<Schedule>, f: real, days: real, f': real, days': real)
    ensures FleetBrings(fleet, f, days) + FleetBrings(fleet, f', days') == FleetBrings(fleet, f + f', days + days')
    decreases fleet
  {
    if fleet != [] {
      FleetBringsAdds(fleet[..|fleet| - 1], f, days, f', days');
      BringsAdds(fleet[|fleet| - 1], f, days, f', days');
    }
  }

  lemma {:induction false} NothingBringsNothing(fleet: seq<Schedule>)
    ensures FleetBrings(fleet, 0.0, 0.0) == 0.0
    decreases fleet
  {
    if fleet != [] {
      NothingBringsNothing(fleet[..|fleet| - 1]);
    }
  }

  function IdleRent(idleRent: real, days: real): real {
    E.Share(Positive(idleRent), days / 30.0)
  }

  lemma IdleRentAdds(idleRent: real, days: real, days': real)
    requires 0.0 <= days'
    ensures IdleRent(idleRent, days) + IdleRent(idleRent, days') == IdleRent(idleRent, days + days')
    ensures Positive(E.Share(idleRent, days' / 30.0)) == IdleRent(idleRent, days')
  {
    Distribute(Positive(idleRent), days / 30.0, days' / 30.0);
    PositiveScales(idleRent, days' / 30.0);
  }

  lemma WindowBrings(fleet: seq<Schedule>, idleRent: real, pieces: seq<real>, elapsed: real)
    requires 0.0 <= elapsed
    ensures var rows := WindowPostings(FleetWorn(fleet, pieces), elapsed, E.Share(idleRent, elapsed / 30.0));
            && Exact(rows) == FleetBrings(fleet, E.Fraction(elapsed), elapsed) - IdleRent(idleRent, elapsed)
            && |rows| <= 6 * |fleet| + 1
  {
    RoutesBring(fleet, pieces, elapsed);
    IdleRentAdds(idleRent, 0.0, elapsed);
    var idle := [Posting(IdleLease, E.Share(idleRent, elapsed / 30.0))];
    assert idle[..0] == [];
    ExactAppends(RoutePostings(FleetWorn(fleet, pieces), elapsed), idle);
  }

  lemma OneMoreWindow(rows: int, each: nat, windows: nat, more: int)
    requires rows <= each * windows && more <= each
    ensures rows + more <= each * (windows + 1)
  {
  }

  function FleetLessIdle(fleet: seq<Schedule>, idleRent: real, fraction: real, days: real): real {
    FleetBrings(fleet, fraction, days) - IdleRent(idleRent, days)
  }

  lemma FleetLessIdleAdds(fleet: seq<Schedule>, idleRent: real, f: real, days: real, f': real, days': real)
    requires 0.0 <= days'
    ensures FleetLessIdle(fleet, idleRent, f, days) + FleetLessIdle(fleet, idleRent, f', days')
            == FleetLessIdle(fleet, idleRent, f + f', days + days')
  {
    FleetBringsAdds(fleet, f, days, f', days');
    IdleRentAdds(idleRent, days, days');
  }

  /** However the time is cut, what all the windows post for the whole fleet is exactly the sum of what each
      schedule brings in over the billed shares, less idle rent by the day. */
  lemma {:induction false} FleetPostingsBring(fleet: seq<Schedule>, idleRent: real, pieces: seq<real>)
    requires Forward(pieces)
    ensures Exact(FleetPostings(fleet, idleRent, pieces))
            == FleetLessIdle(fleet, idleRent, Fractions(pieces), Length(pieces))
    decreases pieces
  {
    if pieces == [] {
      NothingBringsNothing(fleet);
    } else {
      var shorter, last := pieces[..|pieces| - 1], pieces[|pieces| - 1];
      FleetPostingsBring(fleet, idleRent, shorter);
      OneWindowMore(fleet, idleRent, pieces);
      OneWindowBrings(fleet, idleRent, shorter, last, FleetPostings(fleet, idleRent, shorter), Fractions(shorter),
                      Length(shorter));
    }
  }

  lemma OneWindowMore(fleet: seq<Schedule>, idleRent: real, pieces: seq<real>)
    requires pieces != []
    ensures var shorter, last := pieces[..|pieces| - 1], pieces[|pieces| - 1];
            && FleetPostings(fleet, idleRent, pieces)
               == FleetPostings(fleet, idleRent, shorter)
                  + WindowPostings(FleetWorn(fleet, shorter), last, E.Share(idleRent, last / 30.0))
            && Fractions(pieces) == Fractions(shorter) + E.Fraction(last) && Length(pieces) == Length(shorter) + last
  {
  }

  lemma OneWindowBrings(fleet: seq<Schedule>, idleRent: real, pieces: seq<real>, elapsed: real,
                        rows: seq<Posting>, f: real, days: real)
    requires 0.0 <= elapsed && Exact(rows) == FleetLessIdle(fleet, idleRent, f, days)
    ensures Exact(rows + WindowPostings(FleetWorn(fleet, pieces), elapsed, E.Share(idleRent, elapsed / 30.0)))
            == FleetLessIdle(fleet, idleRent, f + E.Fraction(elapsed), days + elapsed)
  {
    WindowBrings(fleet, idleRent, pieces, elapsed);
    FleetLessIdleAdds(fleet, idleRent, f, days, E.Fraction(elapsed), elapsed);
    ExactAppends(rows, WindowPostings(FleetWorn(fleet, pieces), elapsed, E.Share(idleRent, elapsed / 30.0)));
  }

  lemma {:induction false} FleetPostingsCount(fleet: seq<Schedule>, idleRent: real, pieces: seq<real>)
    requires Forward(pieces)
    ensures |FleetPostings(fleet, idleRent, pieces)| <= (6 * |fleet| + 1) * |pieces|
    decreases pieces
  {
    if pieces != [] {
      var shorter, last := pieces[..|pieces| - 1], pieces[|pieces| - 1];
      FleetPostingsCount(fleet, idleRent, shorter);
      WindowBrings(fleet, idleRent, shorter, last);
      OneMoreWindow(|FleetPostings(fleet, idleRent, shorter)|, 6 * |fleet| + 1, |shorter|,
                    |WindowPostings(FleetWorn(fleet, shorter), last, E.Share(idleRent, last / 30.0))|);
    }
  }

  /** Cutting a stretch of at most a week into any pieces moves the balance by at most half a cent for each row
      posted, six a route and one for idle rent in every window, and by nothing else. */
  lemma SplittingCostsOnlyRounding(fleet: seq<Schedule>, idleRent: real, pieces: seq<real>, a: Airline, f: Faults)
    requires Forward(pieces) && pieces != [] && Length(pieces) <= 7.0
    requires Post(a, FleetPostings(fleet, idleRent, pieces), f).Some?
    requires Post(a, FleetPostings(fleet, idleRent, [Length(pieces)]), f).Some?
    ensures var cut := Post(a, FleetPostings(fleet, idleRent, pieces), f).value.account.balance;
            var whole := Post(a, FleetPostings(fleet, idleRent, [Length(pieces)]), f).value.account.balance;
            -(6 * |fleet| + 1) * (|pieces| + 1) <= 2 * (cut - whole) <= (6 * |fleet| + 1) * (|pieces| + 1)
  {
    var one := [Length(pieces)];
    LengthIsPositive(pieces);
    OnePiece(Length(pieces));
    PiecesAddUpIff(pieces);
    FleetPostingsBring(fleet, idleRent, pieces);
    FleetPostingsBring(fleet, idleRent, one);
    FleetPostingsCount(fleet, idleRent, pieces);
    FleetPostingsCount(fleet, idleRent, one);
    PostedIsCloseToExact(a, FleetPostings(fleet, idleRent, pieces), f);
    PostedIsCloseToExact(a, FleetPostings(fleet, idleRent, one), f);
    OneMoreWindow(|FleetPostings(fleet, idleRent, pieces)|, 6 * |fleet| + 1, |pieces|,
                  |FleetPostings(fleet, idleRent, one)|);
  }
}
