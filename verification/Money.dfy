/**
 Money rules shared by every layer (apps/api/internal/money/money.go).

 Amounts are in cents: an `int` is what a numeric(20,2) column holds, a `real` an amount that has not been
 rounded yet.
 */
module Money {
  import opened Sequences

  function MaxReal(a: real, b: real): real {
    if a > b then a else b
  }

  function MinReal(a: real, b: real): real {
    if a < b then a else b
  }

  // To the nearest cent, halves away from zero.
  function Round(x: real): int {
    if x >= 0.0 then (x + 0.5).Floor else -((0.5 - x).Floor)
  }

  predicate AtLeast(a: real, b: real) {
    Round(a) >= Round(b)
  }

  predicate LessThan(a: real, b: real) {
    Round(a) < Round(b)
  }

  lemma RoundIsNearest(x: real)
    ensures -0.5 <= Round(x) as real - x <= 0.5
  {
  }

  lemma RoundTo(x: real, k: int)
    requires -0.5 < k as real - x < 0.5
    ensures Round(x) == k
  {
    RoundIsNearest(x);
    assert -1.0 < (Round(x) - k) as real < 1.0;
  }

  lemma RoundWhole(k: int)
    ensures Round(k as real) == k
  {
    RoundTo(k as real, k);
  }

  lemma RoundKeepsOrder(x: real, y: real)
    requires x <= y
    ensures Round(x) <= Round(y)
  {
    RoundIsNearest(x);
    RoundIsNearest(y);
    if x < y {
      assert (Round(x) - Round(y)) as real < 1.0;
    }
  }

  /** Halves go away from zero on both sides, so rounding commutes with negation. */
  lemma RoundNegates(x: real)
    ensures Round(-x) == -Round(x)
  {
    if x == 0.0 {
      assert Round(x) == 0;
    }
  }

  function RepairCost(condition: real, price: int): real {
    if condition >= 100.0 then 0.0 else (100.0 - condition) * (price as real * 0.0005)
  }

  // Hours; an absent date or clock keeps the value undepreciated.
  function SaleValue(condition: real, price: int, acquired: Option<real>, now: Option<real>): real {
    Depreciated(BaseValue(condition, price),
                if acquired.None? || now.None? then None else Some(Depreciation(acquired.value, now.value)))
  }

  function Part(value: real, factor: real): real {
    value * factor
  }

  function Depreciated(value: real, factor: Option<real>): real {
    if factor.None? then value else Round(Part(value, factor.value)) as real
  }

  function LeaseExitFee(monthly: int): real {
    Round(monthly as real * 0.25) as real
  }

  // Prices in dollars in the source: 25, 60 and 120 million.
  function LeaseDeposit(price: int, monthly: int, basePct: real): real {
    var floor := monthly as real * MaxReal(2.0, basePct * 20.0);
    var pct := if price < 2_500_000_000 then 0.02
               else if price < 6_000_000_000 then 0.03
               else if price < 12_000_000_000 then 0.05
               else 0.08;
    Round(MaxReal(floor, price as real * pct)) as real
  }

  lemma ScaleDown(x: real, f: real)
    requires x >= 0.0 && 0.0 <= f <= 1.0
    ensures 0.0 <= x * f <= x
  {
  }

  lemma RoundBetween(x: real, hi: int)
    requires 0.0 <= x <= hi as real
    ensures 0 <= Round(x) <= hi
  {
    RoundWhole(0);
    RoundWhole(hi);
    RoundKeepsOrder(0.0, x);
    RoundKeepsOrder(x, hi as real);
  }

  function BaseValue(condition: real, price: int): real {
    price as real * (condition / 100.0)
  }

  function Depreciation(acquired: real, now: real): real {
    MaxReal(0.10, 1.0 - 0.05 * MaxReal((now - acquired) / (365.25 * 24.0), 0.0))
  }

  lemma BaseValueInBounds(condition: real, price: int)
    requires 0.0 <= condition <= 100.0 && price >= 0
    ensures 0.0 <= BaseValue(condition, price) <= price as real
  {
    ScaleDown(price as real, condition / 100.0);
  }

  lemma DepreciationInBounds(acquired: real, now: real)
    ensures 0.10 <= Depreciation(acquired, now) <= 1.0
  {
  }

  lemma ScaledValue(value: real, factor: real, price: int)
    requires 0.0 <= value <= price as real && 0.10 <= factor <= 1.0
    ensures 0 <= Round(value * 0.10) <= Round(value * factor) <= price
  {
    ScaleDown(value, factor);
    ScaleDown(value, 0.10);
    ScaleDown(value, factor - 0.10);
    assert value * factor == value * 0.10 + value * (factor - 0.10);
    RoundBetween(value * 0.10, price);
    RoundBetween(value * factor, price);
    RoundKeepsOrder(value * 0.10, value * factor);
  }

  lemma DepreciatedInBounds(value: real, factor: Option<real>, price: int)
    requires 0.0 <= value <= price as real
    requires factor.Some? ==> 0.10 <= factor.value <= 1.0
    ensures 0.0 <= Depreciated(value, factor)
    ensures Round(value * 0.10) <= Round(Depreciated(value, factor)) <= price
  {
    if factor.Some? {
      ScaledValue(value, factor.value, price);
      RoundWhole(Round(value * factor.value));
    } else {
      ScaledValue(value, 1.0, price);
    }
  }

  /** What a sale credits never exceeds the list price, whatever the age or the condition, and never falls
      below the tenth of its value that is kept as scrap. */
  lemma SaleStaysInBounds(condition: real, price: int, acquired: Option<real>, now: Option<real>)
    requires 0.0 <= condition <= 100.0 && price >= 0
    ensures Round(BaseValue(condition, price) * 0.10) <= Round(SaleValue(condition, price, acquired, now)) <= price
    ensures 0.0 <= SaleValue(condition, price, acquired, now)
  {
    BaseValueInBounds(condition, price);
    var factor := if acquired.None? || now.None? then None else Some(Depreciation(acquired.value, now.value));
    if factor.Some? {
      DepreciationInBounds(acquired.value, now.value);
    }
    DepreciatedInBounds(BaseValue(condition, price), factor, price);
  }

  lemma FeesAreNotNegative(condition: real, price: int, monthly: int, basePct: real)
    requires condition >= 0.0 && price >= 0 && monthly >= 0
    ensures RepairCost(condition, price) >= 0.0
    ensures LeaseExitFee(monthly) >= 0.0
    ensures LeaseDeposit(price, monthly, basePct) >= 0.0
  {
    if condition < 100.0 {
      var a, b := 100.0 - condition, price as real * 0.0005;
      assert a * b >= 0.0;
    }
    var m, k := monthly as real, MaxReal(2.0, basePct * 20.0);
    assert m * k >= 0.0;
  }
}
