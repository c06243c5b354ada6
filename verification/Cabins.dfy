/** Filling cabins from a route's daily pool (allocateCabins in apps/api/internal/engine/simulation.go). */
module Cabins {
  import opened Money

  datatype Seats = Seats(economy: nat, business: nat, first: nat)

  // Shares of the pool willing to pay for each cabin; they need not add up to one.
  datatype Shares = Shares(economy: real, business: real, first: real)

  datatype Fares = Fares(base: real, business: real, first: real)

  datatype Allocation = Allocation(passengers: real, revenue: real)

  // Passengers per day in each cabin.
  datatype Load = Load(economy: real, business: real, first: real)

  function Room(seats: nat, factor: real): real {
    seats as real * factor
  }

  // Without any willing share the whole pool flies economy.
  function Demands(s: Shares, pool: real): Load {
    var total := s.economy + s.business + s.first;
    if total <= 0.0 then Load(pool, 0.0, 0.0)
    else Load(pool * s.economy / total, pool * s.business / total, pool * s.first / total)
  }

  // Premium cabins first; passengers they cannot take travel economy.
  function Filled(seats: Seats, d: Load, factor: real): Load {
    var first := MinReal(Room(seats.first, factor), d.first);
    var business := MinReal(Room(seats.business, factor), d.business);
    var downgrades := (d.business - business) + (d.first - first);
    Load(MinReal(Room(seats.economy, factor), d.economy + downgrades), business, first)
  }

  function Carried(l: Load): real {
    l.economy + l.business + l.first
  }

  function Revenue(l: Load, f: Fares): real {
    l.economy * f.base + l.business * f.base * f.business + l.first * f.base * f.first
  }

  function AllocateCabins(seats: Seats, f: Fares, shares: Shares, pool: real, factor: real): Allocation {
    var load := Filled(seats, Demands(shares, pool), factor);
    Allocation(Carried(load), Revenue(load, f))
  }

  // ----- which loads are possible

  predicate SharesAllowed(s: Shares) {
    0.0 <= s.economy && 0.0 <= s.business && 0.0 <= s.first
  }

  // At most this share of all who are willing to fly at all; nobody, if nobody is.
  predicate WithinShare(passengers: real, pool: real, share: real, shares: Shares) {
    var total := shares.economy + shares.business + shares.first;
    if total > 0.0 then passengers * total <= pool * share else passengers <= 0.0
  }

  predicate InSeats(passengers: real, seats: nat, factor: real) {
    0.0 <= passengers <= seats as real * factor
  }

  // No cabin beyond its seats, no premium cabin beyond those willing to pay for it, nobody twice.
  predicate Possible(l: Load, seats: Seats, shares: Shares, pool: real, factor: real) {
    && InSeats(l.economy, seats.economy, factor)
    && InSeats(l.business, seats.business, factor) && WithinShare(l.business, pool, shares.business, shares)
    && InSeats(l.first, seats.first, factor) && WithinShare(l.first, pool, shares.first, shares)
    && l.economy + l.business + l.first <= pool
  }

  lemma Quotient(pool: real, share: real, total: real)
    requires total > 0.0
    ensures pool * share / total * total == pool * share
  {
  }

  /** Every cabin is asked for by its share of the willing, and economy by everybody if nobody is willing. */
  lemma DemandsAreTheShares(s: Shares, pool: real)
    requires SharesAllowed(s)
    ensures var d, total := Demands(s, pool), s.economy + s.business + s.first;
            if total > 0.0
            then d.economy * total == pool * s.economy && d.business * total == pool * s.business
                 && d.first * total == pool * s.first
            else d == Load(pool, 0.0, 0.0)
  {
    var total := s.economy + s.business + s.first;
    if total > 0.0 {
      Quotient(pool, s.economy, total);
      Quotient(pool, s.business, total);
      Quotient(pool, s.first, total);
    }
  }

  lemma SmallerProduct(x: real, y: real, total: real)
    requires 0.0 < total
    ensures x * total <= y * total <==> x <= y
  {
    assert (y - x) * total >= 0.0 <==> y - x >= 0.0;
  }

  lemma WithinShareIff(l: Load, s: Shares, pool: real)
    requires SharesAllowed(s)
    ensures WithinShare(l.business, pool, s.business, s) <==> l.business <= Demands(s, pool).business
    ensures WithinShare(l.first, pool, s.first, s) <==> l.first <= Demands(s, pool).first
  {
    var total, d := s.economy + s.business + s.first, Demands(s, pool);
    DemandsAreTheShares(s, pool);
    if total > 0.0 {
      SmallerProduct(l.business, d.business, total);
      SmallerProduct(l.first, d.first, total);
    }
  }

  lemma PartOf(pool: real, share: real, total: real)
    requires 0.0 <= pool && 0.0 <= share && 0.0 < total
    ensures 0.0 <= pool * share / total
  {
    assert 0.0 <= pool * share;
  }

  lemma DemandsSharePool(s: Shares, pool: real)
    requires SharesAllowed(s) && 0.0 <= pool
    ensures var d := Demands(s, pool);
            0.0 <= d.economy && 0.0 <= d.business && 0.0 <= d.first && Carried(d) == pool
  {
    var total := s.economy + s.business + s.first;
    if total > 0.0 {
      PartOf(pool, s.economy, total);
      PartOf(pool, s.business, total);
      PartOf(pool, s.first, total);
      AddFractions(pool * s.economy, pool * s.business, pool * s.first, total);
      assert pool * s.economy + pool * s.business + pool * s.first == pool * total;
    }
  }

  lemma AddFractions(a: real, b: real, c: real, total: real)
    requires total > 0.0
    ensures a / total + b / total + c / total == (a + b + c) / total
  {
  }

  lemma RoomIsNotNegative(seats: nat, factor: real)
    requires 0.0 <= factor
    ensures 0.0 <= Room(seats, factor)
  {
  }

  // In terms of each cabin's room and of what it is asked for.
  predicate Fits(l: Load, d: Load, economy: real, business: real, first: real, pool: real) {
    && 0.0 <= l.economy <= economy && 0.0 <= l.business <= business && 0.0 <= l.first <= first
    && l.business <= d.business && l.first <= d.first && Carried(l) <= pool
  }

  lemma InSeatsIffInRoom(passengers: real, seats: nat, factor: real)
    ensures InSeats(passengers, seats, factor) <==> 0.0 <= passengers <= Room(seats, factor)
  {
  }

  lemma PossibleIffItFits(l: Load, seats: Seats, shares: Shares, pool: real, factor: real)
    requires SharesAllowed(shares)
    ensures Possible(l, seats, shares, pool, factor)
            <==> Fits(l, Demands(shares, pool), Room(seats.economy, factor), Room(seats.business, factor),
                      Room(seats.first, factor), pool)
  {
    WithinShareIff(l, shares, pool);
    InSeatsIffInRoom(l.economy, seats.economy, factor);
    InSeatsIffInRoom(l.business, seats.business, factor);
    InSeatsIffInRoom(l.first, seats.first, factor);
  }

  lemma FilledFits(seats: Seats, d: Load, pool: real, factor: real)
    requires 0.0 <= factor && 0.0 <= d.economy && 0.0 <= d.business && 0.0 <= d.first && Carried(d) == pool
    ensures Fits(Filled(seats, d, factor), d, Room(seats.economy, factor), Room(seats.business, factor),
                 Room(seats.first, factor), pool)
  {
    RoomIsNotNegative(seats.economy, factor);
    RoomIsNotNegative(seats.business, factor);
    RoomIsNotNegative(seats.first, factor);
  }

  /** The allocation is possible: it never carries more than the pool, the seats or the willing. */
  lemma FilledIsPossible(seats: Seats, shares: Shares, pool: real, factor: real)
    requires SharesAllowed(shares) && 0.0 <= pool && 0.0 <= factor
    ensures Possible(Filled(seats, Demands(shares, pool), factor), seats, shares, pool, factor)
  {
    DemandsSharePool(shares, pool);
    FilledFits(seats, Demands(shares, pool), pool, factor);
    PossibleIffItFits(Filled(seats, Demands(shares, pool), factor), seats, shares, pool, factor);
  }

  // ----- no possible load earns more

  lemma NotNegative(x: real, y: real)
    requires 0.0 <= x && 0.0 <= y
    ensures 0.0 <= x * y
  {
  }

  // Worth of a load in units of the base fare.
  function Units(l: Load, f: Fares): real {
    l.economy + l.business * f.business + l.first * f.first
  }

  lemma RevenueIsUnits(l: Load, f: Fares)
    ensures Revenue(l, f) == f.base * Units(l, f)
  {
  }

  // Whoever is missing from a premium cabin is at best one more in economy.
  ghost predicate Trades(l: Load, best: Load) {
    && l.business <= best.business && l.first <= best.first
    && l.economy <= best.economy + (best.business - l.business) + (best.first - l.first)
  }

  lemma FilledTrades(l: Load, seats: Seats, shares: Shares, pool: real, factor: real)
    requires SharesAllowed(shares) && 0.0 <= pool && 0.0 <= factor && Possible(l, seats, shares, pool, factor)
    ensures Trades(l, Filled(seats, Demands(shares, pool), factor))
  {
    DemandsSharePool(shares, pool);
    PossibleIffItFits(l, seats, shares, pool, factor);
  }

  lemma PremiumIsWorthMore(more: real, fare: real)
    requires 0.0 <= more && 1.0 <= fare
    ensures more <= more * fare
  {
    NotNegative(more, fare - 1.0);
  }

  lemma TradesEarnMore(l: Load, best: Load, f: Fares)
    requires Trades(l, best) && 1.0 <= f.business && 1.0 <= f.first
    ensures Units(l, f) <= Units(best, f)
  {
    PremiumIsWorthMore(best.business - l.business, f.business);
    PremiumIsWorthMore(best.first - l.first, f.first);
    assert (best.business - l.business) * f.business == best.business * f.business - l.business * f.business;
    assert (best.first - l.first) * f.first == best.first * f.first - l.first * f.first;
  }

  lemma Scaled(base: real, x: real, y: real)
    requires 0.0 <= base && x <= y
    ensures base * x <= base * y
  {
    NotNegative(base, y - x);
  }

  lemma TradesEarnRevenue(l: Load, best: Load, f: Fares)
    requires Trades(l, best) && 0.0 <= f.base && 1.0 <= f.business && 1.0 <= f.first
    ensures Revenue(l, f) <= Revenue(best, f)
  {
    TradesEarnMore(l, best, f);
    Scaled(f.base, Units(l, f), Units(best, f));
    RevenueIsUnits(l, f);
    RevenueIsUnits(best, f);
  }

  /** The allocation earns the most any possible load can, when premium fares are not below the base fare. */
  lemma FilledEarnsMost(l: Load, seats: Seats, f: Fares, shares: Shares, pool: real, factor: real)
    requires SharesAllowed(shares) && 0.0 <= pool && 0.0 <= factor
    requires 0.0 <= f.base && 1.0 <= f.business && 1.0 <= f.first
    requires Possible(l, seats, shares, pool, factor)
    ensures Revenue(l, f) <= Revenue(Filled(seats, Demands(shares, pool), factor), f)
  {
    FilledTrades(l, seats, shares, pool, factor);
    TradesEarnRevenue(l, Filled(seats, Demands(shares, pool), factor), f);
  }

  // What a load brings at the fares: the premium ones are multiples of the base fare.
  function Takings(l: Load, f: Fares): real {
    f.base * (l.economy + l.business * f.business + l.first * f.first)
  }

  // `a` is what some possible load carries and brings, and none brings more.
  ghost predicate IsBest(a: Allocation, seats: Seats, f: Fares, shares: Shares, pool: real, factor: real) {
    && (exists l :: Possible(l, seats, shares, pool, factor)
                    && a == Allocation(l.economy + l.business + l.first, Takings(l, f)))
    && (forall l :: Possible(l, seats, shares, pool, factor) ==> Takings(l, f) <= a.revenue)
  }

  /** So the allocation is a best one: its passengers and revenue are those of a possible load, and no possible load
      brings more. */
  lemma AllocationIsBest(seats: Seats, f: Fares, shares: Shares, pool: real, factor: real)
    requires SharesAllowed(shares) && 0.0 <= pool && 0.0 <= factor
    requires 0.0 <= f.base && 1.0 <= f.business && 1.0 <= f.first
    ensures IsBest(AllocateCabins(seats, f, shares, pool, factor), seats, f, shares, pool, factor)
  {
    var best := Filled(seats, Demands(shares, pool), factor);
    FilledIsPossible(seats, shares, pool, factor);
    TakingsAreRevenue(best, f);
    forall l | Possible(l, seats, shares, pool, factor)
      ensures Takings(l, f) <= Takings(best, f)
    {
      FilledEarnsMost(l, seats, f, shares, pool, factor);
      TakingsAreRevenue(l, f);
    }
    BestLoad(best, seats, f, shares, pool, factor);
  }

  lemma TakingsAreRevenue(l: Load, f: Fares)
    ensures Takings(l, f) == Revenue(l, f)
  {
    RevenueIsUnits(l, f);
  }

  lemma BestLoad(best: Load, seats: Seats, f: Fares, shares: Shares, pool: real, factor: real)
    requires Possible(best, seats, shares, pool, factor)
    requires forall l :: Possible(l, seats, shares, pool, factor) ==> Takings(l, f) <= Takings(best, f)
    ensures IsBest(Allocation(best.economy + best.business + best.first, Takings(best, f)), seats, f, shares, pool,
                   factor)
  {
  }

  ghost predicate EarnsMost(f: Fares, seats: Seats, shares: Shares, pool: real) {
    forall l: Load :: Possible(l, seats, shares, pool, 1.0) ==>
      Revenue(l, f) <= Revenue(Filled(seats, Demands(shares, pool), 1.0), f)
  }

  // The best allocation on every aircraft, market and pool.
  ghost predicate AlwaysEarnsMost(f: Fares) {
    forall seats: Seats, shares: Shares, pool: real ::
      SharesAllowed(shares) && 0.0 <= pool ==> EarnsMost(f, seats, shares, pool)
  }

  /** That condition on the fares is exact: a premium fare below the base fare sends a passenger to the dearer
      seat that earns less. */
  lemma EarnsMostIff(f: Fares)
    requires 0.0 < f.base
    ensures AlwaysEarnsMost(f) <==> 1.0 <= f.business && 1.0 <= f.first
  {
    if 1.0 <= f.business && 1.0 <= f.first {
      forall seats: Seats, shares: Shares, pool: real, l: Load |
        SharesAllowed(shares) && 0.0 <= pool && Possible(l, seats, shares, pool, 1.0)
        ensures Revenue(l, f) <= Revenue(Filled(seats, Demands(shares, pool), 1.0), f)
      {
        FilledEarnsMost(l, seats, f, shares, pool, 1.0);
      }
    } else {
      PremiumIsFilledFirst(f);
      assert SharesAllowed(Shares(0.0, 1.0, 0.0)) && SharesAllowed(Shares(0.0, 0.0, 1.0));
    }
  }

  lemma EverybodyWantsBusiness()
    ensures Demands(Shares(0.0, 1.0, 0.0), 1.0) == Load(0.0, 1.0, 0.0)
    ensures Demands(Shares(0.0, 0.0, 1.0), 1.0) == Load(0.0, 0.0, 1.0)
  {
  }

  lemma RoomFor(seats: nat)
    ensures Room(seats, 1.0) == seats as real
  {
  }

  lemma OnePassenger()
    ensures Filled(Seats(1, 1, 0), Load(0.0, 1.0, 0.0), 1.0) == Load(0.0, 1.0, 0.0)
    ensures Filled(Seats(1, 0, 1), Load(0.0, 0.0, 1.0), 1.0) == Load(0.0, 0.0, 1.0)
  {
    RoomFor(0);
    RoomFor(1);
  }

  lemma EconomyEarnsMore(f: Fares)
    requires 0.0 < f.base
    ensures f.business < 1.0 ==> Revenue(Load(1.0, 0.0, 0.0), f) > Revenue(Load(0.0, 1.0, 0.0), f)
    ensures f.first < 1.0 ==> Revenue(Load(1.0, 0.0, 0.0), f) > Revenue(Load(0.0, 0.0, 1.0), f)
  {
    RevenueIsUnits(Load(1.0, 0.0, 0.0), f);
    RevenueIsUnits(Load(0.0, 1.0, 0.0), f);
    RevenueIsUnits(Load(0.0, 0.0, 1.0), f);
    assert f.business < 1.0 ==> f.base * (1.0 - f.business) > 0.0;
    assert f.first < 1.0 ==> f.base * (1.0 - f.first) > 0.0;
  }

  lemma Beaten(f: Fares, seats: Seats, shares: Shares, pool: real, filled: Load, l: Load)
    requires filled == Filled(seats, Demands(shares, pool), 1.0)
    requires Possible(l, seats, shares, pool, 1.0) && Revenue(l, f) > Revenue(filled, f)
    ensures !EarnsMost(f, seats, shares, pool)
  {
  }

  lemma EconomyFits(seats: Seats, shares: Shares, d: Load)
    requires SharesAllowed(shares) && d == Demands(shares, 1.0) && 0.0 <= d.business && 0.0 <= d.first
    requires seats.economy == 1
    ensures Possible(Load(1.0, 0.0, 0.0), seats, shares, 1.0, 1.0)
  {
    RoomFor(seats.economy);
    RoomFor(seats.business);
    RoomFor(seats.first);
    PossibleIffItFits(Load(1.0, 0.0, 0.0), seats, shares, 1.0, 1.0);
  }

  lemma PremiumIsFilledFirst(f: Fares)
    requires 0.0 < f.base
    ensures f.business < 1.0 ==> !EarnsMost(f, Seats(1, 1, 0), Shares(0.0, 1.0, 0.0), 1.0)
    ensures f.first < 1.0 ==> !EarnsMost(f, Seats(1, 0, 1), Shares(0.0, 0.0, 1.0), 1.0)
  {
    EverybodyWantsBusiness();
    OnePassenger();
    EconomyEarnsMore(f);
    if f.business < 1.0 {
      EconomyFits(Seats(1, 1, 0), Shares(0.0, 1.0, 0.0), Load(0.0, 1.0, 0.0));
      Beaten(f, Seats(1, 1, 0), Shares(0.0, 1.0, 0.0), 1.0, Load(0.0, 1.0, 0.0), Load(1.0, 0.0, 0.0));
    }
    if f.first < 1.0 {
      EconomyFits(Seats(1, 0, 1), Shares(0.0, 0.0, 1.0), Load(0.0, 0.0, 1.0));
      Beaten(f, Seats(1, 0, 1), Shares(0.0, 0.0, 1.0), 1.0, Load(0.0, 0.0, 1.0), Load(1.0, 0.0, 0.0));
    }
  }

  // ----- more is never worse

  lemma RoomGrows(seats: nat, seats': nat, factor: real, factor': real)
    requires seats <= seats' && 0.0 <= factor <= factor'
    ensures Room(seats, factor) <= Room(seats', factor')
  {
    NotNegative((seats' - seats) as real, factor');
    NotNegative(seats as real, factor' - factor);
    assert Room(seats', factor') - Room(seats, factor)
        == (seats' - seats) as real * factor' + seats as real * (factor' - factor);
  }

  lemma DemandsGrow(s: Shares, pool: real, pool': real)
    requires SharesAllowed(s) && 0.0 <= pool <= pool'
    ensures Demands(s, pool).business <= Demands(s, pool').business
    ensures Demands(s, pool).first <= Demands(s, pool').first
  {
    var total := s.economy + s.business + s.first;
    if total > 0.0 {
      DemandsAreTheShares(s, pool);
      DemandsAreTheShares(s, pool');
      ShareGrows(pool, pool', s.business, total, Demands(s, pool).business, Demands(s, pool').business);
      ShareGrows(pool, pool', s.first, total, Demands(s, pool).first, Demands(s, pool').first);
    }
  }

  lemma ShareGrows(pool: real, pool': real, share: real, total: real, part: real, part': real)
    requires 0.0 <= pool <= pool' && 0.0 <= share && 0.0 < total
    requires part * total == pool * share && part' * total == pool' * share
    ensures part <= part'
  {
    Scaled(share, pool, pool');
    SmallerProduct(part, part', total);
  }

  /** A larger pool, more seats in any cabin or a higher capacity factor never lowers the revenue. */
  lemma MoreIsNeverWorse(seats: Seats, seats': Seats, f: Fares, shares: Shares, pool: real, pool': real,
                         factor: real, factor': real)
    requires SharesAllowed(shares) && 0.0 <= f.base && 1.0 <= f.business && 1.0 <= f.first
    requires seats.economy <= seats'.economy && seats.business <= seats'.business && seats.first <= seats'.first
    requires 0.0 <= pool <= pool' && 0.0 <= factor <= factor'
    ensures AllocateCabins(seats, f, shares, pool, factor).revenue
            <= AllocateCabins(seats', f, shares, pool', factor').revenue
  {
    var load := Filled(seats, Demands(shares, pool), factor);
    FilledIsPossible(seats, shares, pool, factor);
    RoomGrows(seats.economy, seats'.economy, factor, factor');
    RoomGrows(seats.business, seats'.business, factor, factor');
    RoomGrows(seats.first, seats'.first, factor, factor');
    DemandsGrow(shares, pool, pool');
    PossibleIffItFits(load, seats, shares, pool, factor);
    PossibleIffItFits(load, seats', shares, pool', factor');
    FilledEarnsMost(load, seats', f, shares, pool', factor');
  }

  // Every cabin the aircraft is fitted with takes everyone who would sit in it.
  predicate SeatsToSpare(fitted: Seats, seats: Seats, shares: Shares, pool: real, factor: real) {
    var d := Demands(shares, pool);
    var l := Filled(seats, d, factor);
    && (fitted.first == 0 || d.first <= Room(seats.first, factor))
    && (fitted.business == 0 || d.business <= Room(seats.business, factor))
    && (fitted.economy == 0
        || d.economy + (d.business - l.business) + (d.first - l.first) <= Room(seats.economy, factor))
  }

  /** Once no fitted cabin is short of seats, more of the same cabins carry and earn exactly the same. */
  lemma SpareSeatsEarnNothing(fitted: Seats, seats: Seats, seats': Seats,
                              f: Fares, shares: Shares, pool: real, factor: real)
    requires 0.0 <= factor && SeatsToSpare(fitted, seats, shares, pool, factor)
    requires seats.economy <= seats'.economy && seats.business <= seats'.business && seats.first <= seats'.first
    requires (fitted.economy == 0 ==> seats'.economy == seats.economy)
             && (fitted.business == 0 ==> seats'.business == seats.business)
             && (fitted.first == 0 ==> seats'.first == seats.first)
    ensures AllocateCabins(seats', f, shares, pool, factor) == AllocateCabins(seats, f, shares, pool, factor)
    ensures SeatsToSpare(fitted, seats', shares, pool, factor)
  {
    RoomGrows(seats.economy, seats'.economy, factor, factor);
    RoomGrows(seats.business, seats'.business, factor, factor);
    RoomGrows(seats.first, seats'.first, factor, factor);
    assert Filled(seats', Demands(shares, pool), factor) == Filled(seats, Demands(shares, pool), factor);
  }
}
