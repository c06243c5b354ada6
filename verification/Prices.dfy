/** What the fees, deposits and prices come to, apart from how they are computed: in cents, and times in hours. */
module Prices {
  import opened Sequences
  import opened Money
  import opened Airline
  import opened Fleet

  /** A repair costs a two-thousandth of the price for every point of condition, so a twentieth for all hundred. */
  lemma RepairCostsByThePoint(condition: real, price: int)
    requires 0.0 <= condition <= 100.0
    ensures RepairCost(condition, price) * 2000.0 == (100.0 - condition) * price as real
  {
  }

  /** Ending a lease costs a quarter of a month's rent, to the cent. */
  lemma EndingALeaseCostsAQuarter(monthly: int)
    ensures var fee := LeaseExitFee(monthly);
            fee == fee.Floor as real && -2.0 <= fee * 4.0 - monthly as real <= 2.0
  {
    RoundIsNearest(monthly as real * 0.25);
  }

  // Percent of the price: of 25, 60 and 120 million dollars.
  function DepositPercent(price: int): int {
    if price >= 120_000_000_00 then 8 else if price >= 60_000_000_00 then 5 else if price >= 25_000_000_00 then 3 else 2
  }

  /** A lease's deposit is the share of the price its size calls for, but at least two months' rent, or twenty times the
      base percentage of a month's if that is more. */
  lemma DepositIsShareOrRent(price: int, monthly: nat, basePct: real)
    ensures exists rent, share ::
              Share(share, price) && Rents(rent, monthly, basePct)
              && LeaseDeposit(price, monthly, basePct) == Round(if rent > share then rent else share) as real
  {
    var rent := monthly as real * MaxReal(2.0, basePct * 20.0);
    var share := price as real * (if price < 2_500_000_000 then 0.02 else if price < 6_000_000_000 then 0.03
                                  else if price < 12_000_000_000 then 0.05 else 0.08);
    ShareIs(share, price);
    RentIs(rent, monthly, basePct);
    DepositIsTheLarger(price, monthly, basePct, rent, share);
  }

  lemma ShareIs(share: real, price: int)
    requires share == price as real * (if price < 2_500_000_000 then 0.02 else if price < 6_000_000_000 then 0.03
                                       else if price < 12_000_000_000 then 0.05 else 0.08)
    ensures Share(share, price)
  {
  }

  lemma RentIs(rent: real, monthly: nat, basePct: real)
    requires rent == monthly as real * MaxReal(2.0, basePct * 20.0)
    ensures Rents(rent, monthly, basePct)
  {
  }

  lemma DepositIsTheLarger(price: int, monthly: nat, basePct: real, rent: real, share: real)
    requires rent == monthly as real * MaxReal(2.0, basePct * 20.0)
    requires share == price as real * (if price < 2_500_000_000 then 0.02 else if price < 6_000_000_000 then 0.03
                                       else if price < 12_000_000_000 then 0.05 else 0.08)
    ensures LeaseDeposit(price, monthly, basePct) == Round(if rent > share then rent else share) as real
  {
  }

  predicate Share(share: real, price: int) {
    share * 100.0 == price as real * DepositPercent(price) as real
  }

  predicate Rents(rent: real, monthly: nat, basePct: real) {
    if basePct <= 0.1 then rent == 2.0 * monthly as real else rent == monthly as real * (basePct * 20.0)
  }

  // The share of its worth an aircraft of that age keeps: a twentieth less for every year of 8766 hours, down to a
  // tenth.
  predicate Keeps(part: real, age: real) {
    if age <= 0.0 then part == 1.0
    else if age >= 18.0 * 8766.0 then part == 0.1
    else part * (20.0 * 8766.0) == 20.0 * 8766.0 - age
  }

  predicate Worth(worth: real, price: int, condition: real) {
    worth * 100.0 == price as real * condition
  }

  predicate Brings(value: real, worth: real, part: real, acquired: Option<real>, now: Option<real>) {
    if acquired.None? || now.None? then value == worth
    else Keeps(part, now.value - acquired.value) && value == Round(worth * part) as real
  }

  /** A sale brings the list price at the aircraft's condition, unrounded for an aircraft or an airline without a date;
      with both dates, to the cent, the share of it that the aircraft's age leaves. */
  lemma SalesBringWhatAgeLeaves(condition: real, price: int, acquired: Option<real>, now: Option<real>)
    ensures exists worth: real, part: real ::
              Worth(worth, price, condition)
              && Brings(SaleValue(condition, price, acquired, now), worth, part, acquired, now)
  {
    var worth := BaseValue(condition, price);
    WorthIsBase(condition, price);
    var part := if acquired.Some? && now.Some? then Depreciation(acquired.value, now.value) else 1.0;
    if acquired.Some? && now.Some? {
      KeepsPart(acquired.value, now.value);
      PartlyKept(worth, Some(part), part);
    }
    assert Brings(SaleValue(condition, price, acquired, now), worth, part, acquired, now);
  }

  lemma PartlyKept(worth: real, factor: Option<real>, part: real)
    requires factor == Some(part)
    ensures Depreciated(worth, factor) == Round(worth * part) as real
  {
    assert Part(worth, part) == worth * part;
  }

  lemma WorthIsBase(condition: real, price: int)
    ensures Worth(BaseValue(condition, price), price, condition)
  {
    assert price as real * (condition / 100.0) * 100.0 == price as real * condition;
  }

  lemma KeepsPart(acquired: real, now: real)
    ensures Keeps(Depreciation(acquired, now), now - acquired)
  {
  }

  // ----- seats and tiers

  /** A business seat takes the room of two in economy and a first-class seat that of three; a cabin all in economy fits
      when it has some seats and no more than the aircraft can carry. That says of every cabin whether it fits. */
  lemma SeatsTrade(economy: nat, business: nat, first: nat, capacity: int)
    ensures SeatsFit(economy, business + 1, first, capacity) <==> SeatsFit(economy + 2, business, first, capacity)
    ensures SeatsFit(economy, business, first + 1, capacity) <==> SeatsFit(economy + 3, business, first, capacity)
    ensures SeatsFit(economy, 0, 0, capacity) <==> 0 < economy <= capacity
  {
  }

  /** Bots may order any aircraft and everybody those of the lowest tier; else the player's tier must be as high. */
  lemma OrdersNeedTheTier(o: Order)
    ensures OrderAllowed(o) <==>
              && SeatsFit(if o.economy.Some? then o.economy.value else o.model.capacity, o.business, o.first,
                          o.model.capacity)
              && (o.isPlayer && 1 < o.model.minTier ==> o.model.minTier <= o.tier)
  {
  }
}
