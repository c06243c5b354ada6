/**
 What a route earns in a week, as the tick bills it, as the planner assesses it and as a bot estimates it
 (apps/api/internal/engine/simulation.go, assess.go, bots_decide.go), and the weekly schedule limit of routes.go.
 */
module Economics {
  import opened Sequences
  import opened Money
  import opened Demand
  import opened Cabins

  type NotBelowZero = x: real | 0.0 <= x

  datatype CrewScale = CrewScale(anchor: real, least: real, most: real)

  const DEFAULT_CREW := CrewScale(180.0, 0.5, 2.5)

  datatype Config = Config(
    fuelPrice: real, crewRate: real, ticketBase: real, ticketKm: real, maxWeekly: NotBelowZero, poolScale: real,
    businessFare: real, firstFare: real, shares: Shares, cargoPct: real,
    ownedWear: real, leasedWear: real, autoRepair: real, curve: Curve, crew: CrewScale)

  datatype Plane = Plane(
    speed: real, turnaround: real, capacity: NotBelowZero, fuelBurn: real, maintenanceHour: real, leaseMonth: real,
    leased: bool, seats: Seats, condition: real)

  datatype Route = Route(distance: real, price: real, flights: nat, origin: int, destination: int)

  // Multipliers of the events in force; 1 without one.
  datatype Events = Events(fuel: real, maintenance: real, demand: real, capacity: real)

  const NO_EVENTS := Events(1.0, 1.0, 1.0, 1.0)

  // Revenue, cargo, the costs, and the aircraft's condition afterwards.
  datatype Figures = Figures(
    revenue: real, cargo: real, fuel: real, crew: real, maintenance: real, lease: real, condition: real)

  // ----- parts all three share

  // Go's conversion to int.
  function Trunc(x: real): int {
    if x >= 0.0 then x.Floor else -((-x).Floor)
  }

  // A scale nobody filled in is replaced whole.
  function CrewCost(rate: real, capacity: real, crew: CrewScale): real {
    var scale := if crew.anchor <= 0.0 then DEFAULT_CREW else crew;
    if capacity <= 0.0 then rate
    else rate * MinReal(MaxReal(capacity / scale.anchor, scale.least), scale.most)
  }

  function FlightHours(distance: real, p: Plane): real
    requires p.speed > 0.0
  {
    distance / p.speed + p.turnaround
  }

  // An aircraft without a cabin layout is all economy.
  function Fitted(p: Plane): Seats {
    if p.seats.economy + p.seats.business + p.seats.first <= 0 then Seats(p.capacity.Floor, 0, 0) else p.seats
  }

  function SeatsADay(seats: nat, flightsADay: NotBelowZero): nat {
    NotNegative(seats as real, flightsADay);
    Round(seats as real * flightsADay)
  }

  function DailySeats(seats: Seats, flightsADay: NotBelowZero): Seats {
    Seats(SeatsADay(seats.economy, flightsADay), SeatsADay(seats.business, flightsADay),
          SeatsADay(seats.first, flightsADay))
  }

  function FaresOf(r: Route, c: Config): Fares {
    Fares(r.price, c.businessFare, c.firstFare)
  }

  function PoolOf(r: Route, c: Config): real {
    DailyDemand(r.origin, r.destination, r.distance, r.price, c.ticketBase, c.ticketKm, c.poolScale, c.curve)
  }

  // A cap of zero is no cap.
  function Flown(requested: nat, cap: int): nat {
    if cap > 0 && requested > cap then cap else requested
  }

  function Left(pool: real, multiplier: real): real {
    pool * multiplier
  }

  // Ticket revenue a day from the pool that the event multiplier leaves.
  function Sales(r: Route, p: Plane, c: Config, flights: NotBelowZero, demand: real, capacity: real): real {
    AllocateCabins(DailySeats(Fitted(p), flights / 7.0), FaresOf(r, c), c.shares, Left(PoolOf(r, c), demand),
                   capacity).revenue
  }

  function CrewHour(p: Plane, c: Config): real {
    CrewCost(c.crewRate, p.capacity, c.crew)
  }

  predicate Flies(r: Route, p: Plane) {
    p.speed > 0.0 && FlightHours(r.distance, p) > 0.0
  }

  // The aircraft's weekly limit in whole flights.
  function WeeklyCap(r: Route, p: Plane, c: Config): int
    requires Flies(r, p)
  {
    Trunc(c.maxWeekly / FlightHours(r.distance, p))
  }

  // Over a share of a week.
  function GrossDamage(wearPerCycle: real, flights: nat, fraction: real): real {
    wearPerCycle * flights as real * fraction
  }

  function GrossWeek(wearPerCycle: real, flights: nat): real {
    wearPerCycle * flights as real
  }

  // What is left of the damage after the aircraft's own upkeep.
  function NetDamage(gross: real, autoRepair: real): (net: real)
    ensures 0.0 <= net
  {
    MaxReal(0.0, gross - gross * autoRepair)
  }

  function ConditionAfter(condition: real, net: real): real {
    MaxReal(0.0, condition - net)
  }

  // ----- the tick, for a window of `elapsed` days

  function Tick(r: Route, p: Plane, c: Config, e: Events, elapsed: real): Option<Figures> {
    if r.distance <= 0.0 || !Flies(r, p) then None
    else
      var flights := Flown(r.flights, WeeklyCap(r, p, c));
      Some(Billed(r, p, c, e, elapsed, flights, FlightHours(r.distance, p),
                  Sales(r, p, c, flights as real, e.demand, e.capacity),
                  CrewHour(p, c)))
  }

  function Fraction(elapsed: real): real {
    MinReal(elapsed / 7.0, 1.0)
  }

  function Share(amount: real, fraction: real): real {
    amount * fraction
  }

  function Billed(r: Route, p: Plane, c: Config, e: Events, elapsed: real,
                  flights: nat, hours: real, sales: real, crewHour: real): Figures
    requires p.speed > 0.0
  {
    var fraction := Fraction(elapsed);
    var revenue := Share(sales * 7.0, fraction);
    var fuel := flights as real * r.distance * p.fuelBurn * c.fuelPrice * e.fuel;
    var crew := flights as real * hours * crewHour;
    var maintenance := flights as real * r.distance * p.maintenanceHour * e.maintenance / p.speed;
    var wear := (if p.leased then c.leasedWear else c.ownedWear) + r.distance * 0.0001;
    Figures(revenue, revenue * c.cargoPct, Share(fuel, fraction), Share(crew, fraction), Share(maintenance, fraction),
            if p.leased then p.leaseMonth * (elapsed / 30.0) else 0.0,
            ConditionAfter(p.condition, NetDamage(GrossDamage(wear, flights, fraction), c.autoRepair)))
  }

  // ----- the assessment of one week

  datatype Assessment = Blocked | Assessed(week: Figures, flights: nat)

  // `baseWear` comes with the aircraft; zero stands for the configured one.
  function Assess(r: Route, p: Plane, baseWear: real, c: Config, e: Events): Assessment {
    if !Flies(r, p) || Flown(r.flights, WeeklyCap(r, p, c)) <= 0 then Blocked
    else
      var flights := Flown(r.flights, WeeklyCap(r, p, c));
      Assessed(Week(r, p, baseWear, c, e, flights, FlightHours(r.distance, p),
                    Sales(r, p, c, flights as real, e.demand, e.capacity), CrewHour(p, c)), flights)
  }

  function Week(r: Route, p: Plane, baseWear: real, c: Config, e: Events,
                flights: nat, hours: real, sales: real, crewHour: real): Figures
    requires p.speed > 0.0
  {
    var revenue := sales * 7.0;
    var configured := if p.leased then c.leasedWear else c.ownedWear;
    var wear := (if baseWear == 0.0 then configured else baseWear) + r.distance * 0.0001;
    var gross := GrossWeek(wear, flights);
    Figures(revenue, revenue * c.cargoPct,
            flights as real * r.distance * p.fuelBurn * c.fuelPrice * e.fuel,
            flights as real * hours * crewHour,
            flights as real * r.distance * p.maintenanceHour * e.maintenance / p.speed,
            if p.leased then p.leaseMonth * (7.0 / 30.0) else 0.0,
            ConditionAfter(p.condition, NetDamage(gross, c.autoRepair)))
  }

  function Contribution(week: Figures): real {
    week.revenue + week.cargo - (week.fuel + week.crew + week.maintenance + week.lease)
  }

  // ----- the bot's estimate

  // Not rounded down to whole flights, and no event multipliers.
  function BotFlights(requested: real, cap: real): real {
    MinReal(requested, cap)
  }

  function BotRevenue(sales: real, cargoPct: real): real {
    var revenue := sales * 7.0;
    revenue + revenue * cargoPct
  }

  function BotCost(distance: real, p: Plane, c: Config, flights: real, hours: real, crewHour: real): real
    requires p.speed > 0.0
  {
    flights * distance * p.fuelBurn * c.fuelPrice + flights * hours * crewHour
    + flights * distance * p.maintenanceHour / p.speed
  }

  function BotLease(p: Plane): real {
    if p.leased then p.leaseMonth * 7.0 / 30.0 else 0.0
  }

  function BotProfit(distance: real, p: Plane, c: Config, flights: real, hours: real, sales: real, crewHour: real): real
    requires p.speed > 0.0
  {
    BotRevenue(sales, c.cargoPct) - BotCost(distance, p, c, flights, hours, crewHour) - BotLease(p)
  }

  function RouteWeeklyProfit(r: Route, p: Plane, c: Config): real {
    if r.distance <= 0.0 || !Flies(r, p) then 0.0
    else
      var hours := FlightHours(r.distance, p);
      var flights := BotFlights(r.flights as real, c.maxWeekly / hours);
      BotProfit(r.distance, p, c, flights, hours, Sales(r, p, c, flights, 1.0, 1.0), CrewHour(p, c))
  }

  // ----- the three agree

  lemma FullWeek(wear: real, flights: nat)
    ensures Fraction(7.0) == 1.0 && GrossDamage(wear, flights, 1.0) == GrossWeek(wear, flights)
  {
  }

  lemma BilledWeek(r: Route, p: Plane, baseWear: real, c: Config, e: Events,
                   flights: nat, hours: real, sales: real, crewHour: real)
    requires p.speed > 0.0
    requires baseWear == 0.0 || baseWear == if p.leased then c.leasedWear else c.ownedWear
    ensures Billed(r, p, c, e, 7.0, flights, hours, sales, crewHour)
            == Week(r, p, baseWear, c, e, flights, hours, sales, crewHour)
  {
    var wear := (if p.leased then c.leasedWear else c.ownedWear) + r.distance * 0.0001;
    FullWeek(wear, flights);
    BilledWeekCosts(r, p, baseWear, c, e, flights, hours, sales, crewHour);
    var billed, week := Billed(r, p, c, e, 7.0, flights, hours, sales, crewHour),
        Week(r, p, baseWear, c, e, flights, hours, sales, crewHour);
    assert billed.revenue == week.revenue && billed.cargo == week.cargo && billed.lease == week.lease;
    assert wear == (if baseWear == 0.0 then if p.leased then c.leasedWear else c.ownedWear else baseWear)
        + r.distance * 0.0001;
    assert billed.condition == ConditionAfter(p.condition, NetDamage(GrossDamage(wear, flights, 1.0), c.autoRepair));
    assert week.condition == ConditionAfter(p.condition, NetDamage(GrossWeek(wear, flights), c.autoRepair));
  }

  lemma BilledWeekCosts(r: Route, p: Plane, baseWear: real, c: Config, e: Events,
                        flights: nat, hours: real, sales: real, crewHour: real)
    requires p.speed > 0.0
    ensures var billed, week := Billed(r, p, c, e, 7.0, flights, hours, sales, crewHour),
            Week(r, p, baseWear, c, e, flights, hours, sales, crewHour);
            billed.fuel == week.fuel && billed.crew == week.crew && billed.maintenance == week.maintenance
  {
    assert Fraction(7.0) == 1.0;
  }

  /** A tick of exactly one week bills what the assessment shows, figure by figure, whatever the events; and the
      two never differ on whether a schedule of at least one flight can be flown. */
  lemma TickIsTheAssessment(r: Route, p: Plane, baseWear: real, c: Config, e: Events)
    requires r.distance > 0.0 && r.flights > 0
    requires baseWear == 0.0 || baseWear == if p.leased then c.leasedWear else c.ownedWear
    ensures Tick(r, p, c, e, 7.0).Some? <==> Assess(r, p, baseWear, c, e).Assessed?
    ensures Tick(r, p, c, e, 7.0).Some? ==> Tick(r, p, c, e, 7.0).value == Assess(r, p, baseWear, c, e).week
  {
    if Flies(r, p) {
      var flights := Flown(r.flights, WeeklyCap(r, p, c));
      BilledWeek(r, p, baseWear, c, e, flights, FlightHours(r.distance, p),
                 Sales(r, p, c, flights as real, e.demand, e.capacity), CrewHour(p, c));
    }
  }

  lemma FlownWithinCap(requested: nat, cap: real)
    requires 0.0 <= cap && requested <= Trunc(cap)
    ensures Flown(requested, Trunc(cap)) == requested && BotFlights(requested as real, cap) == requested as real
  {
  }

  lemma WeekIsTheEstimate(r: Route, p: Plane, baseWear: real, c: Config,
                          flights: nat, hours: real, sales: real, crewHour: real)
    requires p.speed > 0.0
    ensures Contribution(Week(r, p, baseWear, c, NO_EVENTS, flights, hours, sales, crewHour))
            == BotProfit(r.distance, p, c, flights as real, hours, sales, crewHour)
  {
  }

  /** Without events, the bot's weekly profit is the assessment's weekly contribution for every schedule within
      the whole number of flights the aircraft can make. */
  lemma ProfitIsContribution(r: Route, p: Plane, c: Config, baseWear: real)
    requires r.distance > 0.0 && Flies(r, p) && 0 < r.flights <= WeeklyCap(r, p, c)
    ensures Assess(r, p, baseWear, c, NO_EVENTS).Assessed?
    ensures RouteWeeklyProfit(r, p, c) == Contribution(Assess(r, p, baseWear, c, NO_EVENTS).week)
  {
    FlownWithinCap(r.flights, c.maxWeekly / FlightHours(r.distance, p));
    WeekIsTheEstimate(r, p, baseWear, c, r.flights, FlightHours(r.distance, p),
                      Sales(r, p, c, r.flights as real, 1.0, 1.0),
                      CrewHour(p, c));
  }

  // ----- one more flight

  // The cost of flying the route once.
  function FlightCost(r: Route, p: Plane, c: Config): real
    requires Flies(r, p)
  {
    BotCost(r.distance, p, c, 1.0, FlightHours(r.distance, p), CrewHour(p, c))
  }

  lemma PerFlight(flights: real, more: real, x: real)
    ensures (flights + more) * x == flights * x + more * x
  {
  }

  function Times(flights: real, cost: real): real {
    flights * cost
  }

  lemma ProfitFallsByFlight(distance: real, p: Plane, c: Config, flights: real, more: real,
                            all: real, hours: real, sales: real, crewHour: real)
    requires p.speed > 0.0 && all == flights + more
    ensures BotProfit(distance, p, c, all, hours, sales, crewHour)
            == BotProfit(distance, p, c, flights, hours, sales, crewHour)
                - Times(more, BotCost(distance, p, c, 1.0, hours, crewHour))
  {
    var fuel, crew, upkeep := distance * p.fuelBurn * c.fuelPrice, hours * crewHour,
        distance * p.maintenanceHour / p.speed;
    CostIsPerFlight(distance, p, c, all, hours, crewHour);
    CostIsPerFlight(distance, p, c, flights, hours, crewHour);
    CostIsPerFlight(distance, p, c, 1.0, hours, crewHour);
    PerFlight(flights, more, fuel + crew + upkeep);
  }

  lemma CostIsPerFlight(distance: real, p: Plane, c: Config, flights: real, hours: real, crewHour: real)
    requires p.speed > 0.0
    ensures BotCost(distance, p, c, flights, hours, crewHour)
            == flights * (distance * p.fuelBurn * c.fuelPrice + hours * crewHour
                          + distance * p.maintenanceHour / p.speed)
  {
    var m := distance * p.maintenanceHour;
    assert flights * m / p.speed == flights * (m / p.speed);
  }

  lemma MoreFlightsMoreSeats(seats: nat, less: NotBelowZero, more: NotBelowZero)
    requires less <= more
    ensures SeatsADay(seats, less) <= SeatsADay(seats, more)
    ensures seats == 0 ==> SeatsADay(seats, less) == SeatsADay(seats, more)
  {
    Scaled(seats as real, less, more);
    RoundKeepsOrder(seats as real * less, seats as real * more);
  }

  // At `flights` a week every fitted cabin takes everyone who would sit in it.
  predicate Saturated(r: Route, p: Plane, c: Config, flights: NotBelowZero) {
    SeatsToSpare(Fitted(p), DailySeats(Fitted(p), flights / 7.0), c.shares, Left(PoolOf(r, c), 1.0), 1.0)
  }

  lemma SalesSaturate(r: Route, p: Plane, c: Config, less: NotBelowZero, more: NotBelowZero)
    requires less <= more && Saturated(r, p, c, less)
    ensures Sales(r, p, c, more, 1.0, 1.0) == Sales(r, p, c, less, 1.0, 1.0) && Saturated(r, p, c, more)
  {
    var fitted := Fitted(p);
    MoreFlightsMoreSeats(fitted.economy, less / 7.0, more / 7.0);
    MoreFlightsMoreSeats(fitted.business, less / 7.0, more / 7.0);
    MoreFlightsMoreSeats(fitted.first, less / 7.0, more / 7.0);
    SpareSeatsEarnNothing(fitted, DailySeats(fitted, less / 7.0), DailySeats(fitted, more / 7.0),
                          FaresOf(r, c), c.shares, Left(PoolOf(r, c), 1.0), 1.0);
  }

  // What is sold depends on the schedule only through the number of flights.
  lemma SalesIgnoreSchedule(r: Route, p: Plane, c: Config, scheduled: nat, flights: NotBelowZero)
    ensures Sales(r.(flights := scheduled), p, c, flights, 1.0, 1.0) == Sales(r, p, c, flights, 1.0, 1.0)
  {
  }

  lemma ProfitParts(r: Route, p: Plane, c: Config, flights: nat)
    requires r.distance > 0.0 && Flies(r, p) && flights as real <= c.maxWeekly / FlightHours(r.distance, p)
    ensures RouteWeeklyProfit(r.(flights := flights), p, c)
            == BotProfit(r.distance, p, c, flights as real, FlightHours(r.distance, p),
                         Sales(r, p, c, flights as real, 1.0, 1.0), CrewHour(p, c))
  {
    SalesIgnoreSchedule(r, p, c, flights, flights as real);
  }

  /** Once no fitted cabin is short of seats, further flights within the aircraft's weekly limit lower the bot's
      profit by exactly what one flight costs, each. */
  lemma FurtherFlightsOnlyCost(r: Route, p: Plane, c: Config, flights: nat, more: nat)
    requires r.distance > 0.0 && Flies(r, p)
    requires (flights + more) as real <= c.maxWeekly / FlightHours(r.distance, p)
    requires Saturated(r, p, c, flights as real)
    ensures Saturated(r, p, c, (flights + more) as real)
    ensures RouteWeeklyProfit(r.(flights := flights + more), p, c)
            == RouteWeeklyProfit(r.(flights := flights), p, c) - Times(more as real, FlightCost(r, p, c))
  {
    SalesSaturate(r, p, c, flights as real, (flights + more) as real);
    ProfitFallsByFlight(r.distance, p, c, flights as real, more as real, (flights + more) as real,
                        FlightHours(r.distance, p),
                        Sales(r, p, c, flights as real, 1.0, 1.0), CrewHour(p, c));
    ProfitParts(r, p, c, flights);
    ProfitParts(r, p, c, flights + more);
  }

  // ----- how many flights a bot schedules

  function Ceil(x: real): int {
    -((-x).Floor)
  }

  // A share that is not positive stands for the default one.
  function WantedShare(ratio: real): real {
    if ratio <= 0.0 then 0.72 else ratio
  }

  function BotTargetFlights(capacity: int, dailyDemand: real, maxPhysical: int, ratio: real): int {
    if capacity <= 0 || maxPhysical <= 0 then 0
    else
      var target := Ceil(dailyDemand * 7.0 / capacity as real * WantedShare(ratio));
      if target < 1 then 1 else if target > maxPhysical then maxPhysical else target
  }

  // `n` flights a week have a seat for everyone in that share of the week's demand.
  predicate Covers(n: int, capacity: int, dailyDemand: real, ratio: real) {
    n as real * capacity as real >= dailyDemand * 7.0 * (if ratio <= 0.0 then 0.72 else ratio)
  }

  lemma CoversIff(n: int, capacity: int, dailyDemand: real, ratio: real)
    requires capacity > 0
    ensures Covers(n, capacity, dailyDemand, ratio)
            <==> n >= Ceil(dailyDemand * 7.0 / capacity as real * WantedShare(ratio))
  {
    var seats, wanted := capacity as real, dailyDemand * 7.0 * WantedShare(ratio);
    var needed := dailyDemand * 7.0 / seats * WantedShare(ratio);
    assert needed * seats == wanted by {
      var d := dailyDemand * 7.0 / seats;
      assert d * seats == dailyDemand * 7.0;
      assert d * WantedShare(ratio) * seats == d * seats * WantedShare(ratio);
    }
    CompareScaled(n as real, needed, seats);
    assert n as real >= needed <==> n >= Ceil(needed);
  }

  lemma CompareScaled(x: real, y: real, k: real)
    requires k > 0.0
    ensures x * k >= y * k <==> x >= y
  {
    assert (x - y) * k >= 0.0 <==> x >= y;
  }

  /** The target is the least number of flights, from one up to the physical limit, whose seats cover the wanted
      share of the week's demand, or the limit when none does. */
  lemma TargetIsTheLeastThatCovers(capacity: int, dailyDemand: real, maxPhysical: int, ratio: real)
    requires capacity > 0 && maxPhysical > 0
    ensures var n := BotTargetFlights(capacity, dailyDemand, maxPhysical, ratio);
            && 1 <= n <= maxPhysical
            && (Covers(n, capacity, dailyDemand, ratio) || n == maxPhysical)
            && (forall m :: 1 <= m < n ==> !Covers(m, capacity, dailyDemand, ratio))
  {
    var n := BotTargetFlights(capacity, dailyDemand, maxPhysical, ratio);
    CoversIff(n, capacity, dailyDemand, ratio);
    forall m | 1 <= m < n
      ensures !Covers(m, capacity, dailyDemand, ratio)
    {
      CoversIff(m, capacity, dailyDemand, ratio);
    }
  }

  // ----- which route a bot opens

  datatype Candidate = Candidate(destination: string, profit: real)

  const MIN_PROFIT := 1000.0

  /** The first of the most profitable candidates, if any reaches the minimum. */
  method PickBestRouteCandidate(candidates: seq<Candidate>) returns (best: Option<Candidate>)
    ensures best.None? <==> forall k :: 0 <= k < |candidates| ==> candidates[k].profit < 1000.0
    ensures best.Some? ==>
              exists i :: 0 <= i < |candidates| && candidates[i] == best.value && best.value.profit >= 1000.0
                          && (forall k :: 0 <= k < |candidates| ==> candidates[k].profit <= best.value.profit)
                          && (forall k :: 0 <= k < i ==> candidates[k].profit < best.value.profit)
  {
    best := None;
    ghost var at := 0;
    for i := 0 to |candidates|
      invariant best.None? <==> forall k :: 0 <= k < i ==> candidates[k].profit < MIN_PROFIT
      invariant best.Some? ==> 0 <= at < i && candidates[at] == best.value && best.value.profit >= MIN_PROFIT
      invariant best.Some? ==> forall k :: 0 <= k < i ==> candidates[k].profit <= best.value.profit
      invariant best.Some? ==> forall k :: 0 <= k < at ==> candidates[k].profit < best.value.profit
    {
      var c := candidates[i];
      if c.profit < MIN_PROFIT {
        continue;
      }
      if best.None? || c.profit > best.value.profit {
        best, at := Some(c), i;
      }
    }
  }

  // ----- the schedule limit of the route commands

  function CalcMaxWeeklyFlights(distance: real, speed: int, turnaround: real, maxWeekly: real): int {
    if distance <= 0.0 || speed <= 0 then 0
    else
      var hours := distance / speed as real + turnaround;
      if hours <= 0.0 then 0 else Trunc(maxWeekly / hours)
  }

  // Assign and UpdateFreqPrice let a schedule through.
  predicate ScheduleAccepted(flights: int, limit: int) {
    !(limit > 0 && flights > limit)
  }

  /** A schedule accepted when the aircraft was assigned or the route changed is flown in full by the tick, and
      any other is cut. */
  lemma AcceptedSchedulesFlyInFull(r: Route, p: Plane, c: Config, speed: int)
    requires r.distance > 0.0 && p.speed == speed as real && Flies(r, p)
    ensures ScheduleAccepted(r.flights, CalcMaxWeeklyFlights(r.distance, speed, p.turnaround, c.maxWeekly))
            <==> Flown(r.flights, WeeklyCap(r, p, c)) == r.flights
  {
  }

  /** The tick keeps to the aircraft's weekly limit exactly when the schedule does or the limit is at least one
      flight: a limit that truncates to zero is taken for none, and every scheduled flight is flown and billed. */
  lemma FlownKeepsToTheLimitIff(r: Route, p: Plane, c: Config)
    requires Flies(r, p)
    ensures Flown(r.flights, WeeklyCap(r, p, c)) as real <= c.maxWeekly / FlightHours(r.distance, p)
            <==> (r.flights as real <= c.maxWeekly / FlightHours(r.distance, p)
                  || c.maxWeekly / FlightHours(r.distance, p) >= 1.0)
  {
  }
}
