/**
 What the weekly figures are made of, each against its own description: the daily pool, the crew's rate, the weekly
 limit, the seats and fares behind the revenue, and the wear.
 */
module EconomicsProofs {
  import opened Money
  import opened Sequences
  import opened Demand
  import opened Cabins
  import opened Economics

  // ----- the daily pool

  // One up to the short distance, the least from the long one on, and on the straight line in between.
  predicate OnTheLine(share: real, distance: real, c: Curve) {
    if distance <= c.shortKm then share == 1.0
    else if distance >= c.longKm || c.longKm <= c.shortKm then share == c.minFactor
    else (share - 1.0) * (c.longKm - c.shortKm) == (distance - c.shortKm) * (c.minFactor - 1.0)
  }

  // The largest elasticity less a multiple of the squared price ratio, kept between nothing and the largest.
  predicate Drops(elasticity: real, price: real, base: real, c: Curve)
    requires base > 0.0
  {
    var raw := c.elasticityMax - c.elasticityQuadratic * (price / base) * (price / base);
    && (raw <= 0.0 || c.elasticityMax <= 0.0 ==> elasticity == 0.0)
    && (0.0 < raw <= c.elasticityMax ==> elasticity == raw)
    && (0.0 < c.elasticityMax <= raw ==> elasticity == c.elasticityMax)
  }

  // The curve in force: one without a short distance stands for the usual one.
  predicate InForce(used: Curve, c: Curve) {
    if c.shortKm > 0.0 then used == c else used == Curve(500.0, 12000.0, 0.35, 1.5, 0.8)
  }

  lemma OnTheWay(x: real, span: real, drop: real)
    requires span > 0.0
    ensures x / span * drop * span == x * drop
  {
    assert x / span * span == x;
  }

  lemma FactorIsOnTheLine(distance: real, c: Curve)
    ensures OnTheLine(DistanceFactor(distance, c), distance, Usable(c))
  {
    var u := Usable(c);
    if u.shortKm < distance < u.longKm {
      OnTheWay(distance - u.shortKm, u.longKm - u.shortKm, u.minFactor - 1.0);
    }
  }

  lemma Hundredths(scale: real, origin: int, destination: int, share: real)
    ensures scale * Weight(origin) * Weight(destination) * share * 10000.0
            == scale * origin as real * destination as real * share
  {
    var o, d := origin as real, destination as real;
    assert Weight(origin) * 100.0 == o && Weight(destination) * 100.0 == d;
    assert scale * Weight(origin) * 100.0 == scale * o;
    assert scale * Weight(origin) * Weight(destination) * 10000.0
        == scale * Weight(origin) * 100.0 * (Weight(destination) * 100.0);
  }

  /** The pool is the scale, times both airports' indices in hundredths, times a share that thins with distance, times
      an elasticity that falls with the square of the fare over the reference fare; nothing without a scale or a
      reference fare. */
  lemma DailyDemandIsTheProduct(origin: int, destination: int, distance: real, price: real, baseFare: real,
                                perKm: real, scale: real, c: Curve)
    ensures var pool, base := DailyDemand(origin, destination, distance, price, baseFare, perKm, scale, c),
                baseFare + distance * perKm;
            if scale <= 0.0 || base <= 0.0 then pool == 0.0
            else exists used, share, elasticity ::
                   InForce(used, c) && OnTheLine(share, distance, used) && Drops(elasticity, price, base, used)
                   && pool * 10000.0 == scale * origin as real * destination as real * share * elasticity
  {
    var base := baseFare + distance * perKm;
    if scale > 0.0 && base > 0.0 {
      var used, share := Usable(c), DistanceFactor(distance, c);
      var elasticity := Elasticity(price / base, used);
      FactorIsOnTheLine(distance, c);
      assert InForce(used, c) && Drops(elasticity, price, base, used);
      Hundredths(scale, origin, destination, share);
      PoolIs(Market(origin, destination, distance, scale, c), price, base, scale, used);
      TenThousandfold(Market(origin, destination, distance, scale, c), elasticity);
    }
  }

  lemma PoolIs(market: real, price: real, base: real, scale: real, c: Curve)
    requires scale > 0.0 && base > 0.0
    ensures Pool(market, price, base, scale, c) == market * Elasticity(price / base, c)
  {
  }

  lemma TenThousandfold(market: real, elasticity: real)
    ensures market * elasticity * 10000.0 == market * 10000.0 * elasticity
  {
  }

  // ----- the crew, the time in the air and the weekly limit

  /** The crew's rate grows with the aircraft's capacity over the anchor, between the least and the most; a scale
      without an anchor stands for the usual one. */
  lemma CrewCostFollowsCapacity(rate: real, capacity: real, crew: CrewScale)
    requires crew.least <= crew.most
    ensures capacity <= 0.0 ==> CrewCost(rate, capacity, crew) == rate
    ensures crew.anchor <= 0.0 ==>
              CrewCost(rate, capacity, crew) == CrewCost(rate, capacity, CrewScale(180.0, 0.5, 2.5))
    ensures 0.0 < capacity && 0.0 < crew.anchor ==>
              && (capacity <= crew.least * crew.anchor ==> CrewCost(rate, capacity, crew) == rate * crew.least)
              && (crew.most * crew.anchor <= capacity ==> CrewCost(rate, capacity, crew) == rate * crew.most)
              && (crew.least * crew.anchor <= capacity <= crew.most * crew.anchor ==>
                    CrewCost(rate, capacity, crew) * crew.anchor == rate * capacity)
  {
    if 0.0 < crew.anchor {
      CrewCostWithin(rate, capacity, crew, capacity / crew.anchor);
    }
  }

  lemma CrewCostWithin(rate: real, capacity: real, crew: CrewScale, ratio: real)
    requires 0.0 < crew.anchor && crew.least <= crew.most && ratio == capacity / crew.anchor
    ensures ratio * crew.anchor == capacity
    ensures capacity <= crew.least * crew.anchor <==> ratio <= crew.least
    ensures crew.most * crew.anchor <= capacity <==> crew.most <= ratio
    ensures rate * ratio * crew.anchor == rate * capacity
  {
    assert ratio * crew.anchor == capacity;
    SmallerProduct(ratio, crew.least, crew.anchor);
    SmallerProduct(crew.most, ratio, crew.anchor);
    assert rate * ratio * crew.anchor == rate * (ratio * crew.anchor);
  }

  /** A round of flying is the distance at the aircraft's speed and the turnaround, and the limit is the number of whole
      rounds the configured hours hold. */
  lemma WeeklyCapIsWholeFlights(r: Route, p: Plane, c: Config)
    requires Flies(r, p)
    ensures var hours, cap := FlightHours(r.distance, p), WeeklyCap(r, p, c);
            && (hours - p.turnaround) * p.speed == r.distance
            && cap as real * hours <= c.maxWeekly < (cap + 1) as real * hours
            && (0 < cap ==> Flown(r.flights, cap) == if r.flights <= cap then r.flights else cap)
            && (cap == 0 ==> Flown(r.flights, cap) == r.flights)
  {
    var hours := FlightHours(r.distance, p);
    var limit := c.maxWeekly / hours;
    assert r.distance / p.speed * p.speed == r.distance;
    Quotients(c.maxWeekly, hours);
    WholePart(limit, hours, c.maxWeekly, WeeklyCap(r, p, c) as real, (WeeklyCap(r, p, c) + 1) as real);
  }

  lemma WholePart(limit: real, hours: real, all: real, low: real, high: real)
    requires 0.0 < hours && limit == all / hours && low <= limit < high
    ensures low * hours <= all < high * hours
  {
    assert limit * hours == all;
    Scaled(hours, low, limit);
    LessScaled(hours, limit, high);
  }

  lemma LessScaled(k: real, x: real, y: real)
    requires 0.0 < k && x < y
    ensures x * k < y * k
  {
    assert 0.0 < (y - x) * k;
  }

  lemma Quotients(x: real, y: real)
    requires 0.0 <= x && 0.0 < y
    ensures 0.0 <= x / y
  {
  }

  /** An event's multiplier is a multiple of the pool. */
  lemma EventsScaleThePool(pool: real, multiplier: real)
    ensures Left(pool, multiplier) == pool * multiplier
  {
  }

  /** A bot's estimate for a schedule beyond the limit is the one for as many flights, whole or not, as the limit
      allows. */
  lemma BotsCapAtTheLimit(r: Route, p: Plane, c: Config)
    requires 0.0 < r.distance && Flies(r, p) && c.maxWeekly / FlightHours(r.distance, p) < r.flights as real
    ensures 0.0 <= c.maxWeekly / FlightHours(r.distance, p)
    ensures var flights, hours := c.maxWeekly / FlightHours(r.distance, p), FlightHours(r.distance, p);
            RouteWeeklyProfit(r, p, c)
            == BotProfit(r.distance, p, c, flights, hours, Sales(r, p, c, flights, 1.0, 1.0), CrewHour(p, c))
  {
    Quotients(c.maxWeekly, FlightHours(r.distance, p));
  }

  // ----- revenue and wear

  // To the nearest seat, the daily seats of a cabin flown that often a week.
  predicate SeatsFlown(daily: nat, seats: nat, flights: nat) {
    -3.5 <= daily as real * 7.0 - seats as real * flights as real <= 3.5
  }

  // The aircraft's own cabins, or one economy cabin for all it can carry.
  predicate DailyCabins(daily: Seats, p: Plane, flights: nat) {
    if p.seats.economy + p.seats.business + p.seats.first > 0
    then SeatsFlown(daily.economy, p.seats.economy, flights) && SeatsFlown(daily.business, p.seats.business, flights)
         && SeatsFlown(daily.first, p.seats.first, flights)
    else SeatsFlown(daily.economy, p.capacity.Floor, flights) && daily.business == daily.first == 0
  }

  lemma SeatsADayAreFlown(seats: nat, flights: nat)
    ensures SeatsFlown(SeatsADay(seats, flights as real / 7.0), seats, flights)
    ensures seats == 0 ==> SeatsADay(seats, flights as real / 7.0) == 0
  {
    RoundIsNearest(seats as real * (flights as real / 7.0));
    assert seats as real * (flights as real / 7.0) * 7.0 == seats as real * flights as real;
  }

  // The share of a week that is billed.
  predicate BilledShare(share: real, elapsed: real) {
    if elapsed <= 7.0 then share * 7.0 == elapsed else share == 1.0
  }

  predicate Sellable(r: Route, c: Config, capacity: real, pool: real) {
    && SharesAllowed(c.shares) && 0.0 <= pool && 0.0 <= capacity
    && 0.0 <= r.price && 1.0 <= c.businessFare && 1.0 <= c.firstFare
  }

  /** A route asks for its airports' daily pool at its own distance and fare. */
  lemma RoutePool(r: Route, c: Config)
    ensures PoolOf(r, c) == DailyDemand(r.origin, r.destination, r.distance, r.price, c.ticketBase, c.ticketKm,
                                        c.poolScale, c.curve)
  {
  }

  // A week's sales are seven times what a best load of the daily seats brings at the route's fares.
  ghost predicate SoldAtBest(weekly: real, r: Route, p: Plane, c: Config, capacity: real, pool: real, flights: nat) {
    exists daily: Seats, a: Allocation ::
      DailyCabins(daily, p, flights) && weekly == a.revenue * 7.0
      && IsBest(a, daily, Fares(r.price, c.businessFare, c.firstFare), c.shares, pool, capacity)
  }

  lemma SalesAreBest(r: Route, p: Plane, c: Config, demand: real, capacity: real, pool: real, flights: nat)
    requires Sellable(r, c, capacity, pool) && pool == Left(PoolOf(r, c), demand)
    ensures SoldAtBest(Sales(r, p, c, flights as real, demand, capacity) * 7.0, r, p, c, capacity, pool, flights)
  {
    var daily := DailySeats(Fitted(p), flights as real / 7.0);
    FittedCabinsAreFlown(p, flights);
    AllocationIsBest(daily, FaresOf(r, c), c.shares, pool, capacity);
    SoldByCabins(AllocateCabins(daily, FaresOf(r, c), c.shares, pool, capacity), daily, pool, r, p, c, capacity,
                 flights);
    SalesAre(r, p, c, flights as real, demand, capacity, daily, FaresOf(r, c), pool);
  }

  lemma SalesAre(r: Route, p: Plane, c: Config, flights: NotBelowZero, demand: real, capacity: real, daily: Seats,
                 f: Fares, pool: real)
    requires daily == DailySeats(Fitted(p), flights / 7.0) && f == FaresOf(r, c) && pool == Left(PoolOf(r, c), demand)
    ensures Sales(r, p, c, flights, demand, capacity) == AllocateCabins(daily, f, c.shares, pool, capacity).revenue
  {
  }

  lemma SoldByCabins(a: Allocation, daily: Seats, pool: real, r: Route, p: Plane, c: Config, capacity: real,
                     flights: nat)
    requires DailyCabins(daily, p, flights)
    requires IsBest(a, daily, Fares(r.price, c.businessFare, c.firstFare), c.shares, pool, capacity)
    ensures SoldAtBest(a.revenue * 7.0, r, p, c, capacity, pool, flights)
  {
  }

  lemma FittedCabinsAreFlown(p: Plane, flights: nat)
    ensures DailyCabins(DailySeats(Fitted(p), flights as real / 7.0), p, flights)
  {
    var fitted := Fitted(p);
    SeatsADayAreFlown(fitted.economy, flights);
    SeatsADayAreFlown(fitted.business, flights);
    SeatsADayAreFlown(fitted.first, flights);
  }

  // Each flight wears the aircraft by a base amount and by the distance; its upkeep takes back a part.
  function WearOf(p: Plane, c: Config, distance: real, flights: nat): real {
    ((if p.leased then c.leasedWear else c.ownedWear) + distance / 10000.0) * flights as real * (1.0 - c.autoRepair)
  }

  lemma WearRegroups(wear: real, flights: real, fraction: real, kept: real)
    ensures wear * flights * fraction - wear * flights * fraction * kept == wear * flights * (1.0 - kept) * fraction
  {
  }

  /** A window sells its share of what the best possible loads bring, adds the cargo to it, and wears the aircraft by
      what its flights do and its upkeep does not undo, down to nothing. */
  lemma TickSellsAndWears(r: Route, p: Plane, c: Config, e: Events, elapsed: real, pool: real)
    requires pool == Left(PoolOf(r, c), e.demand) && Sellable(r, c, e.capacity, pool)
    requires 0.0 < r.distance && Flies(r, p) && 0.0 <= elapsed && c.autoRepair <= 1.0
    requires 0.0 <= c.ownedWear && 0.0 <= c.leasedWear && 0.0 <= p.condition
    ensures Tick(r, p, c, e, elapsed).Some?
    ensures var w, flights := Tick(r, p, c, e, elapsed).value, Flown(r.flights, WeeklyCap(r, p, c));
            exists share, weekly ::
              BilledShare(share, elapsed) && SoldAtBest(weekly, r, p, c, e.capacity, pool, flights)
              && Brought(w, weekly, share, c, p.condition, WearOf(p, c, r.distance, flights))
  {
    var flights := Flown(r.flights, WeeklyCap(r, p, c));
    var sales := Sales(r, p, c, flights as real, e.demand, e.capacity);
    SalesAreBest(r, p, c, e.demand, e.capacity, pool, flights);
    BilledBrings(r, p, c, e, elapsed, flights, sales);
    assert BilledShare(Fraction(elapsed), elapsed) && SoldAtBest(sales * 7.0, r, p, c, e.capacity, pool, flights);
  }

  // Revenue, cargo and condition of a share of a week.
  predicate Brought(w: Figures, weekly: real, share: real, c: Config, condition: real, wear: real) {
    && w.revenue == weekly * share && w.cargo == w.revenue * c.cargoPct
    && w.condition == if wear * share <= condition then condition - wear * share else 0.0
  }

  lemma BilledBrings(r: Route, p: Plane, c: Config, e: Events, elapsed: real, flights: nat, sales: real)
    requires 0.0 < r.distance && Flies(r, p) && 0.0 <= elapsed && c.autoRepair <= 1.0
    requires 0.0 <= c.ownedWear && 0.0 <= c.leasedWear && 0.0 <= p.condition
    ensures Brought(Billed(r, p, c, e, elapsed, flights, FlightHours(r.distance, p), sales, CrewHour(p, c)),
                    sales * 7.0, Fraction(elapsed), c, p.condition, WearOf(p, c, r.distance, flights))
  {
    TickWearsBy(r, p, c, e, elapsed, flights, sales);
  }

  lemma TickWearsBy(r: Route, p: Plane, c: Config, e: Events, elapsed: real, flights: nat, sales: real)
    requires 0.0 < r.distance && Flies(r, p) && 0.0 <= elapsed && c.autoRepair <= 1.0
    requires 0.0 <= c.ownedWear && 0.0 <= c.leasedWear && 0.0 <= p.condition
    ensures var worn := WearOf(p, c, r.distance, flights) * Fraction(elapsed);
            Billed(r, p, c, e, elapsed, flights, FlightHours(r.distance, p), sales, CrewHour(p, c)).condition
            == if worn <= p.condition then p.condition - worn else 0.0
  {
    var wear := (if p.leased then c.leasedWear else c.ownedWear) + r.distance * 0.0001;
    WearRegroups(wear, flights as real, Fraction(elapsed), c.autoRepair);
    NotNegative(wear, flights as real);
    NotNegative(wear * flights as real, 1.0 - c.autoRepair);
    NotNegative(wear * flights as real * (1.0 - c.autoRepair), Fraction(elapsed));
  }
}
