/**
 * The figures the analytics page derives from what the analytics service
 * returns (app/analytics/page.tsx): the growth of each metric against the
 * previous period, the period labels, the "from last …" word and the
 * direction of the revenue trend.
 *
 * Numbers are exact reals; `toFixed(1)` and the other formatting are not
 * modelled.
 */
module AnalyticsPage {
  import opened Wrappers
  import Text
  import opened AnalyticsService

  /** `{ percentage, isPositive }`. */
  datatype Growth = Growth(percentage: real, isPositive: bool)

  /** `calculateGrowth(current, previous)`. */
  function CalculateGrowth(current: real, previous: real): Growth {
    if previous == 0.0 then Growth(0.0, current >= 0.0)
    else
      var pct := (current - previous) / previous * 100.0;
      Growth(pct, pct >= 0.0)
  }

  /** The four growth figures; without metrics each is `{ percentage: 0, isPositive: false }`. */
  datatype Growths = Growths(revenue: Growth, transactions: Growth, avgSale: Growth, customers: Growth)

  /** `growth`, from the current and previous metrics when they are loaded. */
  function GrowthOf(metrics: Option<(Metrics, Metrics)>): Growths {
    if metrics.None? then
      Growths(Growth(0.0, false), Growth(0.0, false), Growth(0.0, false), Growth(0.0, false))
    else
      var (cur, prev) := metrics.value;
      Growths(CalculateGrowth(cur.totalRevenue, prev.totalRevenue),
              CalculateGrowth(cur.transactionCount as real, prev.transactionCount as real),
              CalculateGrowth(cur.avgSale, prev.avgSale),
              CalculateGrowth(cur.uniqueCustomers as real, prev.uniqueCustomers as real))
  }

  /** `getPeriodLabel`. */
  function PeriodLabel(period: Period): string {
    match period
    case Today => "Today"
    case Week => "This Week"
    case Month => "This Month"
    case Year => "This Year"
  }

  /** The word after "from last". */
  function ComparisonWord(period: Period): string {
    match period
    case Today => "day"
    case Week => "week"
    case Month => "month"
    case Year => "year"
  }

  /** `(last - first) / (first || 1)`: the relative change from the first chart point to the last. */
  function TrendRatio(chart: seq<ChartPoint>): real
    requires |chart| > 1
  {
    var first := chart[0].revenue;
    var last := chart[|chart| - 1].revenue;
    (last - first) / (if first != 0.0 then first else 1.0)
  }

  /** The chart header shows "Trending up" when the ratio is positive and "down" otherwise. */
  predicate TrendUp(chart: seq<ChartPoint>)
    requires |chart| > 1
  {
    TrendRatio(chart) > 0.0
  }

  /**
   * Against a previous value of zero the growth is 0% and counts as positive
   * when the current value is not negative. Otherwise it is the change as a
   * percentage of the previous value, positive when the value did not move
   * away from it downwards: for a positive previous value, when the current
   * one is at least as large; for a negative one, when it is at most as large.
   */
  lemma GrowthMeaning(current: real, previous: real)
    ensures previous == 0.0 ==> CalculateGrowth(current, previous) == Growth(0.0, current >= 0.0)
    ensures previous != 0.0 ==>
      CalculateGrowth(current, previous).percentage * previous == (current - previous) * 100.0
    ensures previous > 0.0 ==> (CalculateGrowth(current, previous).isPositive <==> current >= previous)
    ensures previous < 0.0 ==> (CalculateGrowth(current, previous).isPositive <==> current <= previous)
    ensures CalculateGrowth(previous, previous) == Growth(0.0, true)
  {
    if previous != 0.0 {
      var d := current - previous;
      var q := d / previous;
      assert q * previous == d;
      if previous > 0.0 {
        assert q >= 0.0 <==> d >= 0.0 by {
          if q >= 0.0 { assert q * previous >= 0.0; }
          if q < 0.0 { assert q * previous < 0.0; }
        }
      } else {
        assert q >= 0.0 <==> d <= 0.0 by {
          if q >= 0.0 { assert q * previous <= 0.0; }
          if q < 0.0 { assert q * previous > 0.0; }
        }
      }
    }
  }

  /** Each metric's growth compares that metric only; without metrics every figure is 0% and not positive. */
  lemma GrowthsOfMetrics(metrics: Option<(Metrics, Metrics)>)
    ensures metrics.None? ==> forall g :: g in [GrowthOf(metrics).revenue, GrowthOf(metrics).transactions,
                                                 GrowthOf(metrics).avgSale, GrowthOf(metrics).customers]
                                      ==> g == Growth(0.0, false)
    ensures metrics.Some? ==>
      var (cur, prev) := metrics.value;
      && GrowthOf(metrics).revenue == CalculateGrowth(cur.totalRevenue, prev.totalRevenue)
      && GrowthOf(metrics).transactions == CalculateGrowth(cur.transactionCount as real, prev.transactionCount as real)
      && GrowthOf(metrics).avgSale == CalculateGrowth(cur.avgSale, prev.avgSale)
      && GrowthOf(metrics).customers == CalculateGrowth(cur.uniqueCustomers as real, prev.uniqueCustomers as real)
      && (prev.transactionCount == 0 ==> GrowthOf(metrics).transactions == Growth(0.0, true))
      && (prev.uniqueCustomers == 0 ==> GrowthOf(metrics).customers == Growth(0.0, true))
  {
    if metrics.Some? {
      var (cur, prev) := metrics.value;
      assert cur.transactionCount as real >= 0.0 && cur.uniqueCustomers as real >= 0.0;
    }
  }

  /**
   * Lower-cased, as the "Best performers" line shows it, the label is
   * "today" or "this " followed by the word the growth figures compare with;
   * different periods get different labels and words.
   */
  lemma LabelMatchesWord(a: Period, b: Period)
    ensures a == Today ==> Text.Lower(PeriodLabel(a)) == "today"
    ensures a != Today ==> Text.Lower(PeriodLabel(a)) == "this " + ComparisonWord(a)
    ensures a != b ==> PeriodLabel(a) != PeriodLabel(b) && ComparisonWord(a) != ComparisonWord(b)
  {
    var l := PeriodLabel(a);
    var r := Text.Lower(l);
    assert |r| == |l|;
    assert forall i :: 0 <= i < |l| ==> r[i] == Text.LowerChar(l[i]);
  }

  /**
   * The trend is up exactly when the last point moved away from the first in
   * the first one's direction: above it when the first revenue is zero or
   * more, below it when negative.
   */
  lemma TrendMeaning(chart: seq<ChartPoint>)
    requires |chart| > 1
    ensures var first := chart[0].revenue;
      var last := chart[|chart| - 1].revenue;
      TrendUp(chart) <==> (if first >= 0.0 then last > first else last < first)
  {
    var first := chart[0].revenue;
    var last := chart[|chart| - 1].revenue;
    var den := if first != 0.0 then first else 1.0;
    var d := last - first;
    var q := d / den;
    assert q * den == d;
    if den > 0.0 {
      if q > 0.0 { assert q * den > 0.0; }
      if q <= 0.0 { assert q * den <= 0.0; }
    } else {
      if q > 0.0 { assert q * den < 0.0; }
      if q <= 0.0 { assert q * den >= 0.0; }
    }
  }
}
