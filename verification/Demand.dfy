/** A route's daily passenger pool (routeDailyDemand in apps/api/internal/engine/simulation.go). */
module Demand {
  import opened Money

  datatype Curve = Curve(shortKm: real, longKm: real, minFactor: real, elasticityMax: real, elasticityQuadratic: real)

  const DEFAULT_CURVE := Curve(500.0, 12000.0, 0.35, 1.5, 0.8)

  // A curve nobody filled in is replaced whole; its short distance is what tells.
  function Usable(c: Curve): Curve {
    if c.shortKm <= 0.0 then DEFAULT_CURVE else c
  }

  // Full demand up to the short distance, the least from the long one on, a straight line between.
  function DistanceFactor(distance: real, curve: Curve): real {
    var c := Usable(curve);
    if distance <= c.shortKm then 1.0
    else if c.longKm <= c.shortKm || distance >= c.longKm then c.minFactor
    else 1.0 + (distance - c.shortKm) / (c.longKm - c.shortKm) * (c.minFactor - 1.0)
  }

  function Weight(demandIndex: int): real {
    demandIndex as real / 100.0
  }

  function Elasticity(ratio: real, c: Curve): real {
    MaxReal(0.0, MinReal(c.elasticityMax, c.elasticityMax - c.elasticityQuadratic * ratio * ratio))
  }

  // Everything but the price.
  function Market(origin: int, destination: int, distance: real, scale: real, curve: Curve): real {
    scale * Weight(origin) * Weight(destination) * DistanceFactor(distance, curve)
  }

  function DailyDemand(origin: int, destination: int, distance: real, price: real, baseFare: real, perKm: real,
                       scale: real, curve: Curve): real
  {
    Pool(Market(origin, destination, distance, scale, curve), price, baseFare + distance * perKm, scale, Usable(curve))
  }

  function Pool(market: real, price: real, base: real, scale: real, c: Curve): real {
    if scale <= 0.0 || base <= 0.0 then 0.0 else Priced(market, price, base, c)
  }

  // Elastic around the reference fare `base`.
  function Priced(market: real, price: real, base: real, c: Curve): real
    requires base > 0.0
  {
    Drawn(market, Elasticity(price / base, c))
  }

  function Drawn(market: real, elasticity: real): real {
    market * elasticity
  }

  // ----- bounds and direction

  predicate CurveAllowed(c: Curve) {
    0.0 <= c.minFactor <= 1.0 && 0.0 <= c.elasticityMax && 0.0 <= c.elasticityQuadratic
  }

  lemma Along(from: real, to: real, x: real)
    requires from < x < to
    ensures 0.0 <= (x - from) / (to - from) <= 1.0
  {
    assert (x - from) / (to - from) * (to - from) == x - from;
  }

  lemma Between(t: real, least: real)
    requires 0.0 <= t <= 1.0 && 0.0 <= least <= 1.0
    ensures least <= 1.0 + t * (least - 1.0) <= 1.0
  {
    ScaleDown(1.0 - least, t);
  }

  lemma Further(from: real, to: real, x: real, y: real, least: real)
    requires from < x <= y < to && least <= 1.0
    ensures 1.0 + (y - from) / (to - from) * (least - 1.0) <= 1.0 + (x - from) / (to - from) * (least - 1.0)
  {
    var span := to - from;
    var t, u := (x - from) / span, (y - from) / span;
    assert t <= u by {
      assert u - t == (y - x) / span;
    }
    assert (u - t) * (1.0 - least) >= 0.0;
  }

  lemma DistanceInBounds(distance: real, c: Curve)
    requires CurveAllowed(c)
    ensures 0.0 <= Usable(c).minFactor <= DistanceFactor(distance, c) <= 1.0
  {
    var u := Usable(c);
    if u.shortKm < distance < u.longKm {
      Along(u.shortKm, u.longKm, distance);
      Between((distance - u.shortKm) / (u.longKm - u.shortKm), u.minFactor);
    }
  }

  /** A longer route never has a larger share of the demand, and the share stays between the least and one. */
  lemma DistanceOnlyThins(distance: real, further: real, c: Curve)
    requires CurveAllowed(c) && distance <= further
    ensures 0.0 <= Usable(c).minFactor <= DistanceFactor(further, c) <= DistanceFactor(distance, c) <= 1.0
  {
    var u := Usable(c);
    DistanceInBounds(distance, c);
    DistanceInBounds(further, c);
    if u.shortKm < distance && further < u.longKm {
      Further(u.shortKm, u.longKm, distance, further, u.minFactor);
    }
  }

  lemma Product(x: real, y: real, hi: real)
    requires 0.0 <= x && 0.0 <= y <= hi
    ensures 0.0 <= x * y <= x * hi
  {
    assert 0.0 <= x * (hi - y);
  }

  lemma ElasticityFalls(low: real, high: real, c: Curve)
    requires CurveAllowed(c) && 0.0 <= low <= high
    ensures 0.0 <= Elasticity(high, c) <= Elasticity(low, c) <= c.elasticityMax
  {
    Product(low, low, high);
    Product(high, low, high);
    assert low * low <= high * high;
    Product(c.elasticityQuadratic, low * low, high * high);
    assert c.elasticityQuadratic * low * low == c.elasticityQuadratic * (low * low);
    assert c.elasticityQuadratic * high * high == c.elasticityQuadratic * (high * high);
  }

  lemma Cheaper(price: real, dearer: real, base: real)
    requires 0.0 <= price <= dearer && 0.0 < base
    ensures 0.0 <= price / base <= dearer / base
  {
    assert dearer / base - price / base == (dearer - price) / base;
  }

  lemma Thinned(x: real, part: real, hi: real)
    requires 0.0 <= x <= hi && 0.0 <= part <= 1.0
    ensures 0.0 <= x * part <= hi
  {
    ScaleDown(x, part);
  }

  lemma MarketInBounds(origin: int, destination: int, distance: real, scale: real, c: Curve)
    requires CurveAllowed(c) && 0 <= origin <= 100 && 0 <= destination <= 100 && 0.0 <= scale
    ensures 0.0 <= Market(origin, destination, distance, scale, c) <= scale
  {
    DistanceInBounds(distance, c);
    var from, to, thin := Weight(origin), Weight(destination), DistanceFactor(distance, c);
    Thinned(scale, from, scale);
    Thinned(scale * from, to, scale);
    Thinned(scale * from * to, thin, scale);
  }

  lemma DemandOrder(market: real, scale: real, high: real, low: real, most: real)
    requires 0.0 <= market <= scale && 0.0 <= high <= low <= most
    ensures 0.0 <= Drawn(market, high) <= Drawn(market, low) <= scale * most
  {
    var a, b, c := market * low, market * most, scale * most;
    Product(market, high, low);
    Product(market, low, most);
    assert a <= b;
    Product(most, market, scale);
    assert b <= c;
  }

  lemma PricedOrder(market: real, scale: real, price: real, dearer: real, base: real, c: Curve)
    requires CurveAllowed(c) && 0.0 <= price <= dearer && 0.0 < base && 0.0 <= market <= scale
    ensures 0.0 <= Priced(market, dearer, base, c) <= Priced(market, price, base, c) <= scale * c.elasticityMax
  {
    Cheaper(price, dearer, base);
    ElasticityFalls(price / base, dearer / base, c);
    DemandOrder(market, scale, Elasticity(dearer / base, c), Elasticity(price / base, c), c.elasticityMax);
  }

  lemma PoolOrder(market: real, scale: real, price: real, dearer: real, base: real, c: Curve)
    requires CurveAllowed(c) && 0.0 <= price <= dearer && 0.0 <= market <= scale
    ensures 0.0 <= Pool(market, dearer, base, scale, c) <= Pool(market, price, base, scale, c)
            <= scale * c.elasticityMax
  {
    if scale <= 0.0 || base <= 0.0 {
      Product(scale, 0.0, c.elasticityMax);
    } else {
      PricedOrder(market, scale, price, dearer, base, c);
    }
  }

  /** The pool is never negative nor above its scale times the largest elasticity, and a dearer ticket never
      draws more passengers. */
  lemma DemandFallsWithPrice(origin: int, destination: int, distance: real, price: real, dearer: real,
                             baseFare: real, perKm: real, scale: real, c: Curve)
    requires CurveAllowed(c) && 0 <= origin <= 100 && 0 <= destination <= 100
    requires 0.0 <= price <= dearer && 0.0 <= scale
    ensures 0.0 <= DailyDemand(origin, destination, distance, dearer, baseFare, perKm, scale, c)
                <= DailyDemand(origin, destination, distance, price, baseFare, perKm, scale, c)
                <= scale * Usable(c).elasticityMax
  {
    MarketInBounds(origin, destination, distance, scale, c);
    PoolOrder(Market(origin, destination, distance, scale, c), scale, price, dearer, baseFare + distance * perKm,
              Usable(c));
  }
}
