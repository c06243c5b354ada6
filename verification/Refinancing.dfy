/** What a refinancing does to a loan's debt and to its two installments. */
module Refinancing {
  import opened Sequences
  import opened Money
  import opened Airline
  import opened Bank
  import opened AirlineRuns
  import opened LoanProofs
  import opened LoanTerms

  lemma ScaleOrder(x: real, y: real, b: real)
    requires b > 0.0
    ensures x <= y ==> x * b <= y * b
    ensures x < y <==> x * b < y * b
  {
    assert (y - x) * b == y * b - x * b;
  }

  lemma PartOf(e: real, b: real)
    requires 0.0 <= e < 1.0 && b > 0.0
    ensures 0.0 <= e * b < b
  {
    assert (1.0 - e) * b > 0.0;
  }

  lemma Spread(c: real, k: real, b: real)
    ensures (k - c) * b == k * b - c * b
  {
  }

  lemma CeilDivCovers(a: real, b: real)
    requires a > 0.0 && b > 0.0
    ensures CeilDiv(a, b) >= 1.0
    ensures a <= CeilDiv(a, b) * b < a + b
  {
    var c, k := a / b, CeilDiv(a, b);
    assert c * b == a;
    assert c > 0.0;
    PartOf(k - c, b);
    Spread(c, k, b);
  }

  lemma LowerRateLowersTotal(remaining: int, rate: Rate, newRate: Rate)
    requires remaining > 0 && newRate < rate
    ensures 0.0 < NewTotal(remaining, rate, newRate) < remaining as real
  {
    var q := remaining as real / (1.0 + rate);
    assert q * (1.0 + rate) == remaining as real;
    assert q > 0.0;
    assert q * (1.0 + newRate) < q * (1.0 + rate);
  }

  // The number of monthly periods is the least that covers what is owed.
  lemma SpreadLowersInstallment(total: real, remaining: int, monthly: int)
    requires 0.0 < total < remaining as real && monthly > 0
    ensures var periods := CeilDiv(remaining as real, monthly as real);
            periods >= 1.0 && 0.0 < total / periods < monthly as real && total / periods * periods == total
  {
    CeilDivCovers(remaining as real, monthly as real);
    var periods := CeilDiv(remaining as real, monthly as real);
    var each := total / periods;
    assert each * periods == total;
    ScaleOrder(each, monthly as real, periods);
    ScaleOrder(0.0, each, periods);
  }

  lemma PeriodsAreAtLeastOne(remaining: int, monthly: int, weekly: int)
    requires remaining > 0
    ensures 1.0 <= Periods(remaining, monthly, weekly) <= remaining as real
  {
    if monthly > 0 {
      CeilDivCovers(remaining as real, monthly as real);
      CeilDivAtMost(remaining, monthly);
    } else if weekly > 0 {
      CeilDivCovers(remaining as real, weekly as real);
      CeilDivAtMost(remaining, weekly);
    }
  }

  lemma QuotientAtMost(c: real, r: real, e: real)
    requires c * e == r && 0.0 < r && 1.0 <= e
    ensures c <= r
  {
    ScaleOrder(r, c, e);
    assert r * (e - 1.0) >= 0.0;
  }

  // Installments of at least a cent are no more than there are cents.
  lemma CeilDivAtMost(remaining: int, each: int)
    requires remaining > 0 && each > 0
    ensures CeilDiv(remaining as real, each as real) <= remaining as real
  {
    var r, e := remaining as real, each as real;
    assert r / e * e == r;
    QuotientAtMost(r / e, r, e);
    UpBelow(r / e, remaining);
  }

  lemma UpBelow(c: real, k: int)
    requires 0.0 <= c <= k as real
    ensures Up(c) <= k as real
  {
    var whole := c.Floor;
    assert whole <= k;
    if whole < k {
      assert (whole + 1) as real <= k as real;
    }
  }

  /** A refinancing that goes through strictly lowers the rate and never raises the debt, whatever installments
      the loan has. */
  lemma RefinanceNeverCostsMore(l: Loan, newRate: Rate)
    requires l.remaining > 0 && newRate < l.rate && l.monthly.Some?
    ensures Refinanced(l, newRate).rate < l.rate && 0 <= Refinanced(l, newRate).remaining <= l.remaining
  {
    LowerRateLowersTotal(l.remaining, l.rate, newRate);
    RoundKeepsOrder(0.0, NewTotal(l.remaining, l.rate, newRate));
    RoundKeepsOrder(NewTotal(l.remaining, l.rate, newRate), l.remaining as real);
    RoundWhole(l.remaining);
    RoundWhole(0);
  }

  /** The new total is spread, exactly before rounding, over the least number of the old installments that covers
      what was owed, and over one period when there was no installment at all. */
  lemma PeriodsCoverTheDebt(total: real, remaining: int, monthly: int, weekly: int)
    requires remaining > 0
    ensures var periods := Periods(remaining, monthly, weekly);
            var before := if monthly > 0 then monthly else weekly;
            && total / periods * periods == total
            && (before > 0 ==> remaining as real <= periods * before as real < remaining as real + before as real)
            && (before <= 0 ==> periods == 1.0)
  {
    PeriodsAreAtLeastOne(remaining, monthly, weekly);
    if monthly > 0 {
      CeilDivCovers(remaining as real, monthly as real);
    } else if weekly > 0 {
      CeilDivCovers(remaining as real, weekly as real);
    }
  }

  // ----- the monthly installment

  function MonthlyOf(l: Loan, newRate: Rate): real
    requires l.monthly.Some?
  {
    NewTotal(l.remaining, l.rate, newRate) / Periods(l.remaining, l.monthly.value, l.weekly)
  }

  lemma PositiveMonthlyFalls(l: Loan, newRate: Rate)
    requires l.remaining > 0 && newRate < l.rate && l.monthly.Some? && l.monthly.value > 0
    ensures 0.0 < MonthlyOf(l, newRate) < l.monthly.value as real
    ensures Refinanced(l, newRate).monthly.value <= l.monthly.value
  {
    LowerRateLowersTotal(l.remaining, l.rate, newRate);
    SpreadLowersInstallment(NewTotal(l.remaining, l.rate, newRate), l.remaining, l.monthly.value);
    RoundKeepsOrder(MonthlyOf(l, newRate), l.monthly.value as real);
    RoundWhole(l.monthly.value);
  }

  lemma Quotient(total: real, periods: real, remaining: real)
    requires 1.0 <= periods <= remaining && remaining <= 2.0 * total
    ensures 0.5 <= total / periods
  {
    var q := total / periods;
    assert q * periods == total;
    if q < 0.5 {
      ScaleOrder(q, 0.5, periods);
    }
  }

  lemma HalfIsLeft(remaining: int, rate: Rate, newRate: Rate)
    requires remaining > 0 && rate <= 2.0 * newRate + 1.0
    ensures remaining as real <= 2.0 * NewTotal(remaining, rate, newRate)
  {
    var q := remaining as real / (1.0 + rate);
    assert q * (1.0 + rate) == remaining as real;
    assert q > 0.0;
    ScaleOrder(1.0 + rate, 2.0 * (1.0 + newRate), q);
    assert q * (2.0 * (1.0 + newRate)) == 2.0 * (q * (1.0 + newRate));
  }

  // A loan without a monthly installment gets one of at least a cent, unless the rate more than halves the debt.
  lemma NoMonthlyRises(l: Loan, newRate: Rate)
    requires l.remaining > 0 && newRate < l.rate <= 2.0 * newRate + 1.0 && l.monthly.Some? && l.monthly.value <= 0
    ensures Refinanced(l, newRate).monthly.value >= 1
  {
    PeriodsAreAtLeastOne(l.remaining, l.monthly.value, l.weekly);
    HalfIsLeft(l.remaining, l.rate, newRate);
    Quotient(NewTotal(l.remaining, l.rate, newRate), Periods(l.remaining, l.monthly.value, l.weekly),
             l.remaining as real);
    RoundKeepsOrder(0.5, MonthlyOf(l, newRate));
    assert Round(0.5) == 1;
  }

  /** The monthly installment falls or stays exactly when there is one: at any rate a policy holds, each
      refinancing of a loan without one gives it one. */
  lemma MonthlyNeverRisesIff(l: Loan, newRate: Rate)
    requires l.remaining > 0 && newRate < l.rate <= 1.0 && l.monthly.Some?
    ensures Refinanced(l, newRate).monthly.value <= l.monthly.value <==> l.monthly.value > 0
  {
    if l.monthly.value > 0 {
      PositiveMonthlyFalls(l, newRate);
    } else {
      NoMonthlyRises(l, newRate);
    }
  }

  ghost predicate MonthlyNeverRises(l: Loan)
    requires l.monthly.Some?
  {
    forall newRate: Rate :: newRate < l.rate ==> Refinanced(l, newRate).monthly.value <= l.monthly.value
  }

  /** The same at every rate at all: no lower rate raises the monthly installment if and only if there is one. */
  lemma NoRateRaisesMonthlyIff(l: Loan)
    requires l.remaining > 0 && 0.0 < l.rate && l.monthly.Some?
    ensures MonthlyNeverRises(l) <==> l.monthly.value > 0
  {
    if l.monthly.value > 0 {
      forall newRate: Rate | newRate < l.rate
        ensures Refinanced(l, newRate).monthly.value <= l.monthly.value
      {
        PositiveMonthlyFalls(l, newRate);
      }
    } else {
      var newRate: Rate := MaxReal(0.0, (l.rate - 1.0) / 2.0);
      NoMonthlyRises(l, newRate);
      assert newRate < l.rate && Refinanced(l, newRate).monthly.value > l.monthly.value;
    }
  }

  /** Without either installment the whole debt falls due at once: it becomes the next monthly installment. */
  lemma WholeDebtFallsDue(l: Loan, newRate: Rate)
    requires l.monthly.Some? && l.monthly.value <= 0 && l.weekly <= 0
    ensures Refinanced(l, newRate).monthly.value == Refinanced(l, newRate).remaining
  {
  }

  // ----- the weekly installment

  ghost predicate WeeklyNeverRises(l: Loan)
    requires l.monthly.Some?
  {
    forall newRate: Rate :: newRate < l.rate ==> Refinanced(l, newRate).weekly <= l.weekly
  }

  function PerWeek(total: real, periods: real): real
    requires periods != 0.0
  {
    total / periods / WEEKS_PER_MONTH
  }

  // What the old debt comes to a week, spread over the periods the new one is spread over.
  function SpreadWeekly(l: Loan): real
    requires l.remaining > 0 && l.monthly.Some?
  {
    PeriodsAreAtLeastOne(l.remaining, l.monthly.value, l.weekly);
    PerWeek(l.remaining as real, Periods(l.remaining, l.monthly.value, l.weekly))
  }

  lemma WeeklyIs(l: Loan, newRate: Rate, periods: real)
    requires l.remaining > 0 && l.monthly.Some? && periods == Periods(l.remaining, l.monthly.value, l.weekly)
             && periods >= 1.0
    ensures Refinanced(l, newRate).weekly == Round(PerWeek(NewTotal(l.remaining, l.rate, newRate), periods))
  {
  }

  lemma PerWeekOrder(total: real, other: real, periods: real)
    requires periods >= 1.0
    ensures total < other <==> PerWeek(total, periods) < PerWeek(other, periods)
  {
    var x, y := total / periods, other / periods;
    assert x * periods == total && y * periods == other;
    ScaleOrder(x, y, periods);
  }

  lemma WeeklyStaysBelowSpread(l: Loan, newRate: Rate, periods: real)
    requires l.remaining > 0 && newRate < l.rate && periods >= 1.0
    ensures PerWeek(NewTotal(l.remaining, l.rate, newRate), periods) < PerWeek(l.remaining as real, periods)
  {
    LowerRateLowersTotal(l.remaining, l.rate, newRate);
    PerWeekOrder(NewTotal(l.remaining, l.rate, newRate), l.remaining as real, periods);
  }

  lemma RoundBelow(x: real, k: int)
    ensures k >= 0 ==> (Round(x) <= k <==> x < k as real + 0.5)
  {
  }

  // A rate at which the total is at least `target`, if the old total is more.
  lemma RateFor(remaining: int, rate: Rate, target: real) returns (newRate: Rate)
    requires remaining > 0 && 0.0 < rate && 0.0 < target < remaining as real
    ensures newRate < rate && target <= NewTotal(remaining, rate, newRate)
  {
    var q := remaining as real / (1.0 + rate);
    assert q * (1.0 + rate) == remaining as real;
    assert q > 0.0;
    if target <= q {
      newRate := 0.0;
    } else {
      var k := target / q;
      assert k * q == target;
      ScaleOrder(1.0, k, q);
      ScaleOrder(k, 1.0 + rate, q);
      newRate := k - 1.0;
    }
  }

  lemma TargetSpread(target: real, periods: real)
    requires periods >= 1.0
    ensures PerWeek(target * WEEKS_PER_MONTH * periods, periods) == target
  {
    var x := target * WEEKS_PER_MONTH;
    assert x * periods / periods == x;
  }

  lemma SomeRateReaches(remaining: int, rate: Rate, periods: real, target: real) returns (newRate: Rate)
    requires remaining > 0 && 0.0 < rate && periods >= 1.0 && 0.0 < target < PerWeek(remaining as real, periods)
    ensures newRate < rate && target <= PerWeek(NewTotal(remaining, rate, newRate), periods)
  {
    var total := target * WEEKS_PER_MONTH * periods;
    TargetSpread(target, periods);
    PerWeekOrder(total, remaining as real, periods);
    assert 0.0 < total;
    newRate := RateFor(remaining, rate, total);
    PerWeekOrder(NewTotal(remaining, rate, newRate), total, periods);
  }

  /** No lower rate raises the weekly installment, the one the day boundary charges, exactly when the debt over
      the periods it will be spread over comes to at most half a cent a week more than that installment. */
  lemma NoRateRaisesWeeklyIff(l: Loan)
    requires l.remaining > 0 && 0.0 < l.rate && l.monthly.Some? && l.weekly >= 0
    ensures WeeklyNeverRises(l) <==> SpreadWeekly(l) <= l.weekly as real + 0.5
  {
    var periods := Periods(l.remaining, l.monthly.value, l.weekly);
    PeriodsAreAtLeastOne(l.remaining, l.monthly.value, l.weekly);
    if SpreadWeekly(l) <= l.weekly as real + 0.5 {
      forall newRate: Rate | newRate < l.rate
        ensures Refinanced(l, newRate).weekly <= l.weekly
      {
        WeeklyIs(l, newRate, periods);
        WeeklyStaysBelowSpread(l, newRate, periods);
        RoundBelow(PerWeek(NewTotal(l.remaining, l.rate, newRate), periods), l.weekly);
      }
    } else {
      var newRate := SomeRateReaches(l.remaining, l.rate, periods, l.weekly as real + 0.5);
      WeeklyIs(l, newRate, periods);
      RoundBelow(PerWeek(NewTotal(l.remaining, l.rate, newRate), periods), l.weekly);
      assert newRate < l.rate && Refinanced(l, newRate).weekly > l.weekly;
    }
  }

  lemma MatchedRisesByACent(l: Loan, newRate: Rate)
    requires l.remaining > 0 && newRate < l.rate && Matched(l) && l.monthly.Some? && l.monthly.value > 0
    ensures Refinanced(l, newRate).weekly <= l.weekly + 1
  {
    PositiveMonthlyFalls(l, newRate);
    RoundIsNearest(MonthlyOf(l, newRate) / WEEKS_PER_MONTH);
  }

  /** In every run of commands, failures included, a refinancing of a loan with a monthly installment raises the
      weekly one by at most a cent. */
  lemma RefinanceRaisesWeeklyByACent(a: Airline, calls: seq<Call>, id: nat, newRate: Rate)
    requires AllMatched(a.loans) && id < |Run(a, calls).loans|
    requires var l := Run(a, calls).loans[id];
             l.remaining > 0 && newRate < l.rate && l.monthly.Some? && l.monthly.value > 0
    ensures var l := Run(a, calls).loans[id]; Refinanced(l, newRate).weekly <= l.weekly + 1
  {
    RunKeepsMatched(a, calls);
    MatchedRisesByACent(Run(a, calls).loans[id], newRate);
  }

  // ----- loans the bank grants

  /** A loan whose weekly installment a refinancing from 7% to 6% takes from 2 cents to 3. */
  lemma RefinanceCanRaiseTheWeeklyInstallment()
    ensures var l := NewLoan(10_000_000.0, 4_367_347, Unsecured, 0.07);
            l.weekly == 2 && l.monthly.value > 0 && Refinanced(l, 0.06).weekly == 3
  {
    var l := NewLoan(10_000_000.0, 4_367_347, Unsecured, 0.07);
    RoundTo(10_000_000.0 * 1.07 / 4_367_347.0, 2);
    RoundTo(10_000_000.0 * 1.07 / 4_367_347.0 * WEEKS_PER_MONTH, 11);
    RoundWhole(10_000_000);
    assert l.remaining == 10_000_000 && l.monthly == Some(11);
    assert CeilDiv(10_000_000.0, 11.0) == 909_091.0;
    var monthly := NewTotal(10_000_000, 0.07, 0.06) / 909_091.0;
    RoundTo(monthly / WEEKS_PER_MONTH, 3);
  }

  // Nothing bounds the term: over a hundred million weeks a loan of 100,000.00 has no installments.
  lemma LoanWithoutInstallments()
    ensures var l := NewLoan(10_000_000.0, 100_000_000, Unsecured, 0.07);
            l.remaining == 10_000_000 && l.weekly == 0 && l.monthly == Some(0)
  {
    RoundTo(10_000_000.0 * 1.07 / 100_000_000.0, 0);
    RoundTo(10_000_000.0 * 1.07 / 100_000_000.0 * WEEKS_PER_MONTH, 0);
    RoundWhole(10_000_000);
  }

  lemma DebtFallsDue(l: Loan)
    requires l.remaining == 10_000_000 && l.rate == 0.07 && l.weekly == 0 && l.monthly == Some(0)
    ensures Refinanced(l, 0.06).monthly.value > 9_000_000 && Refinanced(l, 0.06).weekly > 2_000_000
  {
    var total := NewTotal(10_000_000, 0.07, 0.06);
    assert total * 1.07 == 10_600_000.0;
    assert total / 1.0 == total;
    RoundIsNearest(total);
    RoundIsNearest(total / WEEKS_PER_MONTH);
  }

  /** The bank grants that loan to any player entitled to borrow so much, and refinancing it makes the player owe
      nearly all of it in the first month. */
  lemma RefinanceCanMakeTheWholeDebtDue(a: Airline, p: Policy, better: Policy)
    requires ActiveLoans(a) < p.maxActive && p.minLoan <= 10_000_000.0 <= p.maxUnsecured
    requires p.rateUnsecured == 0.07 && better.rateUnsecured == 0.06
    ensures var (lent, granted) := TakeLoan(a, 10_000_000.0, 100_000_000, Unsecured, false, p, NO_FAULTS);
            var (eased, accepted) := Refinance(lent, |a.loans|, better, NO_FAULTS);
            && granted.Accepted? && |lent.loans| == |a.loans| + 1
            && lent.loans[|a.loans|].weekly == 0 && lent.loans[|a.loans|].monthly == Some(0)
            && accepted.Accepted? && |eased.loans| == |a.loans| + 1
            && eased.loans[|a.loans|].monthly.value > 9_000_000 && eased.loans[|a.loans|].weekly > 2_000_000
  {
    var l := NewLoan(10_000_000.0, 100_000_000, Unsecured, 0.07);
    LoanWithoutInstallments();
    DebtFallsDue(l);
    RoundWhole(10_000_000);
  }
}
