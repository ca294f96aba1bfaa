/**
 * The sales analytics service (lib/analytics-service.ts): the reporting
 * window of a period, the metric roll-up, the revenue chart buckets, the
 * top-selling products and the slow-moving items.
 *
 * The rows the queries return are given as sequences; a query that fails is
 * `None`. Money is `real`; a total or subtotal that is not a number is
 * `None` and counts as 0, as `Number(x) || 0` does.
 */
module AnalyticsService {
  import opened Wrappers
  import Text
  import Seqs
  import Calendar

  datatype Period = Today | Week | Month | Year

  /** `Number(x) || 0`. */
  function Amount(raw: Option<real>): real {
    raw.GetOr(0.0)
  }

  // ---------------------------------------------------------------------------
  // The reporting window (`getDateRange`)

  /** A window of local time; a row is in it when `start <= created_at <= end`. */
  datatype Range = Range(start: Calendar.Instant, end: Calendar.Instant)

  predicate InRange(t: Calendar.Instant, r: Range) {
    Calendar.InstantLe(r.start, t) && Calendar.InstantLe(t, r.end)
  }

  /** `daysToMonday`: days back to this week's Monday, plus seven per week of offset (`weekday` counts from Sunday = 0). */
  function DaysToMonday(weekday: int, offset: nat): nat
    requires 0 <= weekday < 7
  {
    (if weekday == 0 then 6 else weekday - 1) + offset * 7
  }

  /** The start of the window as written: the week case goes back `daysToMonday + 6` days. */
  function RangeStart(period: Period, offset: nat, now: Calendar.Instant, weekday: int): Calendar.Instant
    requires Calendar.ValidInstant(now) && 0 <= weekday < 7
  {
    match period
    case Today => if offset == 0 then Calendar.Midnight(now.date) else Calendar.Midnight(Calendar.PrevDay(now.date))
    case Week => Calendar.Midnight(Calendar.MinusDays(now.date, DaysToMonday(weekday, offset) + 6))
    case Month => Calendar.Midnight(Calendar.MonthStart(now.date, offset))
    case Year => Calendar.Midnight(Calendar.Date(now.date.year - offset, 0, 1))
  }

  /** `getDateRange(period, offset)`: from the start above to now, or to the end of today when `offset > 0`. */
  function DateRange(period: Period, offset: nat, now: Calendar.Instant, weekday: int): Range
    requires Calendar.ValidInstant(now) && 0 <= weekday < 7
  {
    Range(RangeStart(period, offset, now, weekday), if offset > 0 then Calendar.EndOfDay(now.date) else now)
  }

  /**
   * As written, the week window always starts on a Tuesday (weekday 2), and
   * for the current week 6 to 12 days back -- never on this week's Monday.
   */
  lemma WeekStartIsTuesday(weekday: int, offset: nat)
    requires 0 <= weekday < 7
    ensures Calendar.WeekdayBefore(weekday, DaysToMonday(weekday, offset) + 6) == 2
    ensures offset == 0 ==> 6 <= DaysToMonday(weekday, offset) + 6 <= 12
  {
  }

  /** On Wednesday 15 January 2025 the window called "This Week" starts on Tuesday 7 January, in the week before. */
  lemma WeekStartExample()
    ensures RangeStart(Week, 0, Calendar.Instant(Calendar.Date(2025, 0, 15), 0), 3).date == Calendar.Date(2025, 0, 7)
  {
    var d := Calendar.Date(2025, 0, 15);
    assert DaysToMonday(3, 0) + 6 == 8;
    assert Calendar.MinusDays(d, 8) == Calendar.Date(2025, 0, 7);
  }

  /** The previous window never starts after the current one. */
  lemma PreviousStartNotLater(period: Period, now: Calendar.Instant, weekday: int)
    requires Calendar.ValidInstant(now) && 0 <= weekday < 7
    ensures Calendar.InstantLe(RangeStart(period, 1, now, weekday), RangeStart(period, 0, now, weekday))
  {
    match period
    case Today => Calendar.StepOrder(now.date);
    case Week => Calendar.MinusDaysMonotone(now.date, DaysToMonday(weekday, 0) + 6, DaysToMonday(weekday, 1) + 6);
    case Month => Calendar.MonthStartOrder(now.date);
    case Year =>
  }

  /**
   * As written, the previous window (offset 1) ends at the end of today, so
   * every instant of the current window also lies in the previous one.
   */
  lemma PreviousRangeCoversCurrent(period: Period, now: Calendar.Instant, weekday: int, t: Calendar.Instant)
    requires Calendar.ValidInstant(now) && 0 <= weekday < 7
    requires InRange(t, DateRange(period, 0, now, weekday))
    ensures InRange(t, DateRange(period, 1, now, weekday))
  {
    var cur := DateRange(period, 0, now, weekday);
    var prev := DateRange(period, 1, now, weekday);
    PreviousStartNotLater(period, now, weekday);
    Calendar.InstantLeTrans(prev.start, cur.start, t);
    Calendar.InstantLeTrans(t, now, prev.end);
  }

  /** The start of the window as evidently intended: the week case starts on the Monday `offset` weeks back. */
  function IntendedStart(period: Period, offset: nat, now: Calendar.Instant, weekday: int): Calendar.Instant
    requires Calendar.ValidInstant(now) && 0 <= weekday < 7
  {
    match period
    case Week => Calendar.Midnight(Calendar.MinusDays(now.date, DaysToMonday(weekday, offset)))
    case _ => RangeStart(period, offset, now, weekday)
  }

  /** The window as evidently intended: a past window ends at the last millisecond before the next one starts. */
  function IntendedRange(period: Period, offset: nat, now: Calendar.Instant, weekday: int): Range
    requires Calendar.ValidInstant(now) && 0 <= weekday < 7
  {
    var start := IntendedStart(period, offset, now, weekday);
    if offset == 0 then Range(start, now)
    else
      var next := IntendedStart(period, offset - 1, now, weekday);
      Range(start, Calendar.EndOfDay(Calendar.PrevDay(next.date)))
  }

  /** The intended week window starts on a Monday, this week's for offset 0. */
  lemma IntendedWeekStartsMonday(weekday: int, offset: nat)
    requires 0 <= weekday < 7
    ensures Calendar.WeekdayBefore(weekday, DaysToMonday(weekday, offset)) == 1
    ensures offset == 0 ==> DaysToMonday(weekday, offset) <= 6
  {
  }

  lemma IntendedStartOrder(period: Period, now: Calendar.Instant, weekday: int)
    requires Calendar.ValidInstant(now) && 0 <= weekday < 7
    ensures Calendar.DateLt(IntendedStart(period, 1, now, weekday).date, IntendedStart(period, 0, now, weekday).date)
    ensures IntendedStart(period, 0, now, weekday).ms == 0 && IntendedStart(period, 1, now, weekday).ms == 0
  {
    match period
    case Today => Calendar.StepOrder(now.date);
    case Week => Calendar.MinusDaysMonotone(now.date, DaysToMonday(weekday, 0), DaysToMonday(weekday, 1));
    case Month => Calendar.MonthStartOrder(now.date);
    case Year =>
  }

  /**
   * The intended previous window is not empty, ends on the day before the
   * current window starts, and shares no instant with the current window.
   */
  lemma IntendedRangesAdjacent(period: Period, now: Calendar.Instant, weekday: int)
    requires Calendar.ValidInstant(now) && 0 <= weekday < 7
    ensures var prev := IntendedRange(period, 1, now, weekday);
      var cur := IntendedRange(period, 0, now, weekday);
      Calendar.InstantLe(prev.start, prev.end)
      && Calendar.NextDay(prev.end.date) == cur.start.date
      && forall t :: !(InRange(t, prev) && InRange(t, cur))
  {
    var prev := IntendedRange(period, 1, now, weekday);
    var cur := IntendedRange(period, 0, now, weekday);
    IntendedStartOrder(period, now, weekday);
    Calendar.BeforeMeansByPrevDay(prev.start.date, cur.start.date);
    Calendar.NextPrevInverse(cur.start.date);
    Calendar.StepOrder(cur.start.date);
    forall t | InRange(t, prev) ensures !InRange(t, cur) {
      if InRange(t, cur) {
        Calendar.InstantLeTrans(cur.start, t, prev.end);
        assert false;
      }
    }
  }

  // ---------------------------------------------------------------------------
  // The metric roll-up (`calculateMetrics`)

  /** A `transactions` row as the metrics query reads it. */
  datatype MetricRow = MetricRow(createdAt: Calendar.Instant, userId: Option<string>, totalAmount: Option<real>)

  datatype Metrics = Metrics(totalRevenue: real, transactionCount: nat, avgSale: real, uniqueCustomers: nat)

  function RowAmount(t: MetricRow): real {
    Amount(t.totalAmount)
  }

  /** The distinct non-null user ids (`new Set(... .filter(id => id != null))`). */
  function UserIds(rows: seq<MetricRow>): set<string> {
    if rows == [] then {}
    else (match rows[0].userId case Some(u) => {u} case None => {}) + UserIds(rows[1..])
  }

  /** The distinct user ids are exactly those some row carries, and there are no more of them than rows. */
  lemma {:induction false} UserIdsSpec(rows: seq<MetricRow>)
    ensures |UserIds(rows)| <= |rows|
    ensures forall u :: u in UserIds(rows) <==> exists i :: 0 <= i < |rows| && rows[i].userId == Some(u)
  {
    UserIdsSize(rows);
    UserIdsMembers(rows);
  }

  lemma {:induction false} UserIdsSize(rows: seq<MetricRow>)
    ensures |UserIds(rows)| <= |rows|
  {
    if rows != [] {
      UserIdsSize(rows[1..]);
      var rest := UserIds(rows[1..]);
      match rows[0].userId {
        case Some(u) =>
          if u in rest {
            assert {u} + rest == rest;
          } else {
            assert |{u} + rest| == |rest| + 1;
          }
        case None =>
          assert UserIds(rows) == rest;
      }
    }
  }

  lemma {:induction false} UserIdsMembers(rows: seq<MetricRow>)
    ensures forall u :: u in UserIds(rows) <==> exists i :: 0 <= i < |rows| && rows[i].userId == Some(u)
  {
    if rows != [] {
      UserIdsMembers(rows[1..]);
      forall u | u in UserIds(rows) ensures exists i :: 0 <= i < |rows| && rows[i].userId == Some(u) {
        if rows[0].userId != Some(u) {
          var i :| 0 <= i < |rows[1..]| && rows[1..][i].userId == Some(u);
          assert rows[i + 1].userId == Some(u);
        }
      }
      forall u | exists i :: 0 <= i < |rows| && rows[i].userId == Some(u) ensures u in UserIds(rows) {
        var i :| 0 <= i < |rows| && rows[i].userId == Some(u);
        if i > 0 {
          assert rows[1..][i - 1].userId == Some(u);
        }
      }
    }
  }

  /** `calculateMetrics`. */
  function CalculateMetrics(rows: seq<MetricRow>): Metrics {
    var total := Seqs.SumBy(rows, RowAmount);
    var count := |rows|;
    var unique := |UserIds(rows)|;
    Metrics(total, count, if count > 0 then total / count as real else 0.0, if unique != 0 then unique else count)
  }

  /** The average times the count gives back the revenue; with no rows everything is 0. */
  lemma MetricsAverage(rows: seq<MetricRow>)
    ensures var m := CalculateMetrics(rows);
      m.transactionCount == |rows|
      && (m.transactionCount > 0 ==> m.avgSale * m.transactionCount as real == m.totalRevenue)
      && (rows == [] ==> m.totalRevenue == 0.0 && m.avgSale == 0.0 && m.uniqueCustomers == 0)
  {
  }

  /**
   * The customer count is the number of distinct known user ids, or the row
   * count when no row has one; it never exceeds the rows and is 0 only
   * without rows.
   */
  lemma MetricsCustomers(rows: seq<MetricRow>)
    ensures var m := CalculateMetrics(rows);
      m.uniqueCustomers <= |rows|
      && (m.uniqueCustomers == 0 <==> rows == [])
      && ((exists i :: 0 <= i < |rows| && rows[i].userId.Some?) ==> m.uniqueCustomers == |UserIds(rows)| >= 1)
      && ((forall i :: 0 <= i < |rows| ==> rows[i].userId.None?) ==> m.uniqueCustomers == |rows|)
  {
    UserIdsSpec(rows);
    if exists i :: 0 <= i < |rows| && rows[i].userId.Some? {
      var i :| 0 <= i < |rows| && rows[i].userId.Some?;
      assert rows[i].userId.value in UserIds(rows);
    } else {
      assert UserIds(rows) == {};
    }
  }

  /** With non-negative amounts the revenue and the average are non-negative. */
  lemma {:induction false} MetricsNonNegative(rows: seq<MetricRow>)
    requires forall i :: 0 <= i < |rows| ==> RowAmount(rows[i]) >= 0.0
    ensures CalculateMetrics(rows).totalRevenue >= 0.0 && CalculateMetrics(rows).avgSale >= 0.0
  {
    if rows != [] {
      assert forall i :: 0 <= i < |rows[1..]| ==> RowAmount(rows[1..][i]) >= 0.0 by {
        forall i | 0 <= i < |rows[1..]| ensures RowAmount(rows[1..][i]) >= 0.0 {
          assert rows[1..][i] == rows[i + 1];
        }
      }
      MetricsNonNegative(rows[1..]);
    }
  }

  function InRangeFn(r: Range): MetricRow -> bool {
    (row: MetricRow) => InRange(row.createdAt, r)
  }

  /** The rows of a window (the `.gte`/`.lte` filters on `created_at`). */
  function RowsIn(rows: seq<MetricRow>, r: Range): seq<MetricRow> {
    Seqs.Filter(rows, InRangeFn(r))
  }

  /** `fetchAnalyticsMetrics`: both roll-ups, or all zeros when either query fails. */
  function FetchMetrics(rows: Option<seq<MetricRow>>, period: Period, now: Calendar.Instant, weekday: int): (Metrics, Metrics)
    requires Calendar.ValidInstant(now) && 0 <= weekday < 7
  {
    match rows
    case None => (Metrics(0.0, 0, 0.0, 0), Metrics(0.0, 0, 0.0, 0))
    case Some(all) =>
      (CalculateMetrics(RowsIn(all, DateRange(period, 0, now, weekday))),
       CalculateMetrics(RowsIn(all, DateRange(period, 1, now, weekday))))
  }

  /**
   * Because the previous window covers the current one, with non-negative
   * amounts the "previous" revenue and count are never below the current
   * ones: revenue growth can never be positive.
   */
  lemma PreviousRevenueNotBelowCurrent(rows: seq<MetricRow>, period: Period, now: Calendar.Instant, weekday: int)
    requires Calendar.ValidInstant(now) && 0 <= weekday < 7
    requires forall i :: 0 <= i < |rows| ==> RowAmount(rows[i]) >= 0.0
    ensures var (current, previous) := FetchMetrics(Some(rows), period, now, weekday);
      current.totalRevenue <= previous.totalRevenue && current.transactionCount <= previous.transactionCount
  {
    var cur := DateRange(period, 0, now, weekday);
    var prev := DateRange(period, 1, now, weekday);
    forall x | x in rows && InRangeFn(cur)(x) ensures InRangeFn(prev)(x) {
      PreviousRangeCoversCurrent(period, now, weekday, x.createdAt);
    }
    Seqs.SumByFilterMonotone(rows, RowAmount, InRangeFn(cur), InRangeFn(prev));
    Seqs.FilterLengthMonotone(rows, InRangeFn(cur), InRangeFn(prev));
  }

  /** Splitting the rows splits the revenue. */
  lemma RevenueAdditive(a: seq<MetricRow>, b: seq<MetricRow>)
    ensures CalculateMetrics(a + b).totalRevenue == CalculateMetrics(a).totalRevenue + CalculateMetrics(b).totalRevenue
    ensures CalculateMetrics(a + b).transactionCount == CalculateMetrics(a).transactionCount + CalculateMetrics(b).transactionCount
  {
    Seqs.SumByAppend(a, b, RowAmount);
  }

  // ---------------------------------------------------------------------------
  // The revenue chart (`fetchRevenueChartData`)

  /** A `transactions` row as the chart query reads it, with the weekday of its local date (`getDay`, Sunday = 0). */
  datatype ChartRow = ChartRow(createdAt: Calendar.Instant, weekday: int, totalAmount: Option<real>)

  datatype ChartPoint = ChartPoint(period: string, revenue: real)

  predicate ValidChartRow(r: ChartRow) {
    Calendar.ValidInstant(r.createdAt) && 0 <= r.weekday < 7
  }

  function ChartAmount(r: ChartRow): real {
    Amount(r.totalAmount)
  }

  function PointRevenue(p: ChartPoint): real {
    p.revenue
  }

  /** `hour % 12 || 12`. */
  function DisplayHour(hour: int): int
    requires 0 <= hour < 24
  {
    if hour % 12 == 0 then 12 else hour % 12
  }

  function Meridiem(hour: int): string
    requires 0 <= hour < 24
  {
    if hour >= 12 then "PM" else "AM"
  }

  /** The hour bucket: `"<displayHour> AM"` or `"<displayHour> PM"`. */
  function HourLabel(hour: int): string
    requires 0 <= hour < 24
  {
    Text.NatToString(DisplayHour(hour)) + " " + Meridiem(hour)
  }

  /** The hour shown is 1..12 and, with the meridiem, gives the hour back: midnight is "12 AM", noon "12 PM". */
  lemma HourLabelParts(hour: int)
    requires 0 <= hour < 24
    ensures 1 <= DisplayHour(hour) <= 12
    ensures hour == DisplayHour(hour) % 12 + (if Meridiem(hour) == "PM" then 12 else 0)
    ensures (Meridiem(hour) == "PM") <==> hour >= 12
  {
  }

  lemma HourLabelExamples()
    ensures HourLabel(0) == "12 AM" && HourLabel(12) == "12 PM" && HourLabel(13) == "1 PM"
  {
    assert Text.NatToString(12) == "12";
  }

  /** Different hours get different labels, so an hour bucket holds one hour of the day. */
  lemma HourLabelInjective(h1: int, h2: int)
    requires 0 <= h1 < 24 && 0 <= h2 < 24
    requires HourLabel(h1) == HourLabel(h2)
    ensures h1 == h2
  {
    var a := Text.NatToString(DisplayHour(h1));
    var b := Text.NatToString(DisplayHour(h2));
    var s := HourLabel(h1);
    assert a == s[..|a|] == b;
    Text.NatToStringInjective(DisplayHour(h1), DisplayHour(h2));
    assert s[|a| + 1..] == Meridiem(h1) == Meridiem(h2);
    HourLabelParts(h1);
    HourLabelParts(h2);
  }

  const DayNames: seq<string> := ["Sun", "Mon", "Tue", "Wed", "Thu", "Fri", "Sat"]

  const MonthNames: seq<string> :=
    ["Jan", "Feb", "Mar", "Apr", "May", "Jun", "Jul", "Aug", "Sep", "Oct", "Nov", "Dec"]

  /** The bucket of a row: its hour, weekday name, day of the month, or month name. */
  function ChartKey(period: Period, r: ChartRow): string
    requires ValidChartRow(r)
  {
    match period
    case Today => HourLabel(r.createdAt.ms / 3600000)
    case Week => DayNames[r.weekday]
    case Month => Text.NatToString(r.createdAt.date.day)
    case Year => MonthNames[r.createdAt.date.month]
  }

  /** Two rows share a bucket exactly when they share the hour, weekday, day of the month, or month. */
  lemma ChartKeySame(period: Period, r1: ChartRow, r2: ChartRow)
    requires ValidChartRow(r1) && ValidChartRow(r2)
    ensures ChartKey(period, r1) == ChartKey(period, r2) <==>
      match period
      case Today => r1.createdAt.ms / 3600000 == r2.createdAt.ms / 3600000
      case Week => r1.weekday == r2.weekday
      case Month => r1.createdAt.date.day == r2.createdAt.date.day
      case Year => r1.createdAt.date.month == r2.createdAt.date.month
  {
    if ChartKey(period, r1) == ChartKey(period, r2) {
      match period
      case Today => HourLabelInjective(r1.createdAt.ms / 3600000, r2.createdAt.ms / 3600000);
      case Week =>
      case Month => Text.NatToStringInjective(r1.createdAt.date.day, r2.createdAt.date.day);
      case Year =>
    }
  }

  /** The bucket of any row; rows the clock could not produce get the empty key. */
  function ChartKeyFn(period: Period): ChartRow -> string {
    (r: ChartRow) => if ValidChartRow(r) then ChartKey(period, r) else ""
  }

  // The `grouped[key] = (grouped[key] || 0) + amount` loop, for any key and amount.

  /** The sum of the amounts of the rows whose key is `k`, added up from the last row back. */
  function BucketSum<T>(rows: seq<T>, key: T -> string, amount: T -> real, k: string): real {
    if rows == [] then 0.0
    else
      var n := |rows| - 1;
      BucketSum(rows[..n], key, amount, k) + (if key(rows[n]) == k then amount(rows[n]) else 0.0)
  }

  function KeyIs<T>(key: T -> string, k: string): T -> bool {
    (x: T) => key(x) == k
  }

  /** A bucket's sum is the sum over the rows that `filter` keeps for its key. */
  lemma {:induction false} BucketSumIsFilteredSum<T>(rows: seq<T>, key: T -> string, amount: T -> real, k: string)
    ensures BucketSum(rows, key, amount, k) == Seqs.SumBy(Seqs.Filter(rows, KeyIs(key, k)), amount)
  {
    if rows != [] {
      var n := |rows| - 1;
      BucketSumIsFilteredSum(rows[..n], key, amount, k);
      assert rows == rows[..n] + [rows[n]];
      Seqs.FilterAppend(rows[..n], [rows[n]], KeyIs(key, k));
      assert [rows[n]][1..] == [];
      var kept := Seqs.Filter(rows[..n], KeyIs(key, k));
      assert KeyIs(key, k)(rows[n]) == (key(rows[n]) == k);
      if key(rows[n]) == k {
        assert Seqs.Filter([rows[n]], KeyIs(key, k)) == [rows[n]];
        Seqs.SumByAppend(kept, [rows[n]], amount);
      } else {
        assert Seqs.Filter([rows[n]], KeyIs(key, k)) == [];
        assert kept + [] == kept;
      }
    }
  }

  /** A key no row has sums to 0. */
  lemma {:induction false} BucketSumAbsent<T>(rows: seq<T>, key: T -> string, amount: T -> real, k: string)
    requires forall j :: 0 <= j < |rows| ==> key(rows[j]) != k
    ensures BucketSum(rows, key, amount, k) == 0.0
  {
    if rows != [] {
      BucketSumAbsent(rows[..|rows| - 1], key, amount, k);
    }
  }

  predicate DistinctStrings(ks: seq<string>) {
    forall i, j :: 0 <= i < j < |ks| ==> ks[i] != ks[j]
  }

  /** The sum of the buckets listed in `order`. */
  function BucketsTotal(order: seq<string>, grouped: map<string, real>): real
    requires forall i :: 0 <= i < |order| ==> order[i] in grouped
  {
    if order == [] then 0.0
    else BucketsTotal(order[..|order| - 1], grouped) + grouped[order[|order| - 1]]
  }

  /** Adding to one listed bucket adds as much to the sum. */
  lemma {:induction false} BucketsTotalAdd(order: seq<string>, grouped: map<string, real>, key: string, delta: real)
    requires forall i :: 0 <= i < |order| ==> order[i] in grouped
    requires DistinctStrings(order) && key in grouped
    ensures BucketsTotal(order, grouped[key := grouped[key] + delta])
         == BucketsTotal(order, grouped) + (if key in order then delta else 0.0)
  {
    if order != [] {
      var n := |order| - 1;
      assert DistinctStrings(order[..n]);
      BucketsTotalAdd(order[..n], grouped, key, delta);
      assert key in order <==> key in order[..n] || key == order[n];
      if key == order[n] {
        assert key !in order[..n];
      }
    }
  }

  /** Setting a bucket outside `order` leaves the sum alone. */
  lemma {:induction false} BucketsTotalFrame(order: seq<string>, grouped: map<string, real>, key: string, v: real)
    requires forall i :: 0 <= i < |order| ==> order[i] in grouped
    requires key !in order
    ensures BucketsTotal(order, grouped[key := v]) == BucketsTotal(order, grouped)
  {
    if order != [] {
      BucketsTotalFrame(order[..|order| - 1], grouped, key, v);
    }
  }

  /** The points of `Object.entries(grouped)`, taken in insertion order (integer-like keys are not moved first). */
  function Points(order: seq<string>, grouped: map<string, real>): (ps: seq<ChartPoint>)
    requires forall i :: 0 <= i < |order| ==> order[i] in grouped
    ensures |ps| == |order|
    ensures forall i :: 0 <= i < |order| ==> ps[i] == ChartPoint(order[i], grouped[order[i]])
  {
    seq(|order|, i requires 0 <= i < |order| => ChartPoint(order[i], grouped[order[i]]))
  }

  lemma {:induction false} PointsTotal(order: seq<string>, grouped: map<string, real>)
    requires forall i :: 0 <= i < |order| ==> order[i] in grouped
    ensures Seqs.SumBy(Points(order, grouped), PointRevenue) == BucketsTotal(order, grouped)
  {
    if order != [] {
      var n := |order| - 1;
      PointsTotal(order[..n], grouped);
      assert Points(order, grouped) == Points(order[..n], grouped) + [ChartPoint(order[n], grouped[order[n]])];
      Seqs.SumByAppend(Points(order[..n], grouped), [ChartPoint(order[n], grouped[order[n]])], PointRevenue);
    }
  }

  lemma SumByStep<T>(rows: seq<T>, amount: T -> real, i: int)
    requires 0 <= i < |rows|
    ensures Seqs.SumBy(rows[..i + 1], amount) == Seqs.SumBy(rows[..i], amount) + amount(rows[i])
  {
    assert rows[..i + 1] == rows[..i] + [rows[i]];
    Seqs.SumByAppend(rows[..i], [rows[i]], amount);
  }

  /**
   * The keys seen in the first `i` rows: `order` lists each once, in the order
   * first met, and `firstAt[p]` is a row that has key `order[p]`.
   */
  ghost predicate KeysSeen<T>(rows: seq<T>, key: T -> string, i: int, order: seq<string>, firstAt: seq<int>)
    requires 0 <= i <= |rows|
  {
    DistinctStrings(order)
    && |firstAt| == |order|
    && (forall p :: 0 <= p < |order| ==> 0 <= firstAt[p] < i && key(rows[firstAt[p]]) == order[p])
    && (forall p, j :: 0 <= p < |order| && 0 <= j < firstAt[p] ==> key(rows[j]) != order[p])
    && (forall p, q :: 0 <= p < q < |order| ==> firstAt[p] < firstAt[q])
    && (forall j :: 0 <= j < i ==> key(rows[j]) in order)
  }

  /** `grouped` holds exactly the keys of `order`, each with its bucket sum over the first `i` rows. */
  ghost predicate SumsSoFar<T>(rows: seq<T>, key: T -> string, amount: T -> real, i: int,
                               grouped: map<string, real>, order: seq<string>)
    requires 0 <= i <= |rows|
  {
    (forall k :: k in grouped <==> k in order)
    && (forall k :: k in grouped ==> grouped[k] == BucketSum(rows[..i], key, amount, k))
  }

  lemma KeysSeenExisting<T>(rows: seq<T>, key: T -> string, i: int, order: seq<string>, firstAt: seq<int>)
    requires 0 <= i < |rows|
    requires KeysSeen(rows, key, i, order, firstAt) && key(rows[i]) in order
    ensures KeysSeen(rows, key, i + 1, order, firstAt)
  {
  }

  lemma KeysSeenNew<T>(rows: seq<T>, key: T -> string, i: int, order: seq<string>, firstAt: seq<int>)
    requires 0 <= i < |rows|
    requires KeysSeen(rows, key, i, order, firstAt) && key(rows[i]) !in order
    ensures KeysSeen(rows, key, i + 1, order + [key(rows[i])], firstAt + [i])
  {
    var o := order + [key(rows[i])];
    var f := firstAt + [i];
    forall p, j | 0 <= p < |o| && 0 <= j < f[p] ensures key(rows[j]) != o[p] {
      if p == |order| {
        assert key(rows[j]) in order;
      }
    }
    forall p, q | 0 <= p < q < |o| ensures o[p] != o[q] {
      if q < |order| {
        assert o[p] == order[p] && o[q] == order[q];
      } else {
        assert o[p] in order;
      }
    }
  }

  /** Adding row `i` to the bucket of a key already seen. */
  lemma SumsSoFarExisting<T>(rows: seq<T>, key: T -> string, amount: T -> real, i: int,
                             grouped: map<string, real>, order: seq<string>)
    requires 0 <= i < |rows| && key(rows[i]) in grouped
    requires SumsSoFar(rows, key, amount, i, grouped, order)
    ensures SumsSoFar(rows, key, amount, i + 1, grouped[key(rows[i]) := grouped[key(rows[i])] + amount(rows[i])], order)
  {
    var g := grouped[key(rows[i]) := grouped[key(rows[i])] + amount(rows[i])];
    forall k | k in g ensures g[k] == BucketSum(rows[..i + 1], key, amount, k) {
      BucketSumStep(rows, key, amount, i, k);
    }
  }

  /** Opening the bucket of a key no earlier row has, with row `i`'s amount. */
  lemma SumsSoFarNew<T>(rows: seq<T>, key: T -> string, amount: T -> real, i: int,
                        grouped: map<string, real>, order: seq<string>)
    requires 0 <= i < |rows| && key(rows[i]) !in grouped
    requires SumsSoFar(rows, key, amount, i, grouped, order)
    requires forall j :: 0 <= j < i ==> key(rows[j]) != key(rows[i])
    ensures SumsSoFar(rows, key, amount, i + 1, grouped[key(rows[i]) := amount(rows[i])], order + [key(rows[i])])
  {
    var k0 := key(rows[i]);
    var g := grouped[k0 := amount(rows[i])];
    forall j | 0 <= j < i ensures key(rows[..i][j]) != k0 {
      assert rows[..i][j] == rows[j];
    }
    BucketSumAbsent(rows[..i], key, amount, k0);
    forall k | k in g ensures g[k] == BucketSum(rows[..i + 1], key, amount, k) {
      BucketSumStep(rows, key, amount, i, k);
    }
  }

  /** The buckets still add up to the rows so far once row `i` is added to an existing bucket. */
  lemma TotalExisting<T>(rows: seq<T>, amount: T -> real, i: int,
                         grouped: map<string, real>, order: seq<string>, k0: string)
    requires 0 <= i < |rows| && k0 in grouped
    requires forall k :: k in grouped <==> k in order
    requires DistinctStrings(order)
    requires BucketsTotal(order, grouped) == Seqs.SumBy(rows[..i], amount)
    ensures BucketsTotal(order, grouped[k0 := grouped[k0] + amount(rows[i])]) == Seqs.SumBy(rows[..i + 1], amount)
  {
    SumByStep(rows, amount, i);
    BucketsTotalAdd(order, grouped, k0, amount(rows[i]));
  }

  /** The buckets still add up to the rows so far once row `i` opens a new bucket. */
  lemma TotalNew<T>(rows: seq<T>, amount: T -> real, i: int,
                    grouped: map<string, real>, order: seq<string>, k0: string)
    requires 0 <= i < |rows| && k0 !in grouped
    requires forall k :: k in grouped <==> k in order
    requires BucketsTotal(order, grouped) == Seqs.SumBy(rows[..i], amount)
    ensures BucketsTotal(order + [k0], grouped[k0 := amount(rows[i])]) == Seqs.SumBy(rows[..i + 1], amount)
  {
    SumByStep(rows, amount, i);
    BucketsTotalFrame(order, grouped, k0, amount(rows[i]));
    var o := order + [k0];
    assert o[..|o| - 1] == order;
  }

  /** Everything the grouping loop keeps after the first `i` rows. */
  ghost predicate Grouping<T>(rows: seq<T>, key: T -> string, amount: T -> real, i: int,
                              grouped: map<string, real>, order: seq<string>, firstAt: seq<int>)
    requires 0 <= i <= |rows|
  {
    && KeysSeen(rows, key, i, order, firstAt)
    && SumsSoFar(rows, key, amount, i, grouped, order)
    && (forall p :: 0 <= p < |order| ==> order[p] in grouped)
    && BucketsTotal(order, grouped) == Seqs.SumBy(rows[..i], amount)
  }

  /** One turn of the loop (`grouped[key] = (grouped[key] || 0) + amount`) for a row whose key is already in `grouped`. */
  lemma GroupExisting<T>(rows: seq<T>, key: T -> string, amount: T -> real, i: int,
                         grouped: map<string, real>, order: seq<string>, firstAt: seq<int>)
    requires 0 <= i < |rows| && key(rows[i]) in grouped
    requires Grouping(rows, key, amount, i, grouped, order, firstAt)
    ensures Grouping(rows, key, amount, i + 1,
      grouped[key(rows[i]) := grouped[key(rows[i])] + amount(rows[i])], order, firstAt)
  {
    var k := key(rows[i]);
    SumsSoFarExisting(rows, key, amount, i, grouped, order);
    TotalExisting(rows, amount, i, grouped, order, k);
    KeysSeenExisting(rows, key, i, order, firstAt);
  }

  /** One turn of the loop for a row with a new key: the key joins the order with the row's amount. */
  lemma GroupNew<T>(rows: seq<T>, key: T -> string, amount: T -> real, i: int,
                    grouped: map<string, real>, order: seq<string>, firstAt: seq<int>)
    requires 0 <= i < |rows| && key(rows[i]) !in grouped
    requires Grouping(rows, key, amount, i, grouped, order, firstAt)
    ensures Grouping(rows, key, amount, i + 1, grouped[key(rows[i]) := amount(rows[i])],
                     order + [key(rows[i])], firstAt + [i])
  {
    var k := key(rows[i]);
    forall j | 0 <= j < i ensures key(rows[j]) != k {
      assert key(rows[j]) in order;
    }
    SumsSoFarNew(rows, key, amount, i, grouped, order);
    TotalNew(rows, amount, i, grouped, order, k);
    KeysSeenNew(rows, key, i, order, firstAt);
  }

  /**
   * The `forEach` that fills `grouped`, then `Object.entries`: one point per
   * key that some row has, no key twice, each point's revenue the sum over
   * its rows, so the points add up to the whole revenue.
   */
  method GroupRevenue<T>(rows: seq<T>, key: T -> string, amount: T -> real) returns (points: seq<ChartPoint>)
    ensures forall i, j :: 0 <= i < j < |points| ==> points[i].period != points[j].period
    ensures forall i :: 0 <= i < |points| ==> points[i].revenue == BucketSum(rows, key, amount, points[i].period)
    ensures forall j :: 0 <= j < |rows| ==> key(rows[j]) in Periods(points)
    ensures forall i :: 0 <= i < |points| ==> points[i].period in Keys(rows, key)
    ensures Seqs.SumBy(points, PointRevenue) == Seqs.SumBy(rows, amount)
  {
    var grouped, order, firstAt := GroupRows(rows, key, amount);
    GroupRevenueDone(rows, key, amount, grouped, order, firstAt);
    points := Points(order, grouped);
  }

  /** One turn of the `forEach` that fills `grouped`: `grouped[key] = (grouped[key] || 0) + amount`. */
  method GroupRow<T>(rows: seq<T>, key: T -> string, amount: T -> real, i: int,
                     grouped: map<string, real>, order: seq<string>, ghost firstAt: seq<int>)
    returns (grouped': map<string, real>, order': seq<string>, ghost firstAt': seq<int>)
    requires 0 <= i < |rows|
    requires Grouping(rows, key, amount, i, grouped, order, firstAt)
    ensures Grouping(rows, key, amount, i + 1, grouped', order', firstAt')
  {
    var k := key(rows[i]);
    if k in grouped {
      GroupExisting(rows, key, amount, i, grouped, order, firstAt);
      grouped', order', firstAt' := grouped[k := grouped[k] + amount(rows[i])], order, firstAt;
    } else {
      GroupNew(rows, key, amount, i, grouped, order, firstAt);
      grouped', order', firstAt' := grouped[k := amount(rows[i])], order + [k], firstAt + [i];
    }
  }

  /**
   * The `forEach` that fills the `grouped` object: `order` lists its keys in
   * insertion order and `firstAt` the index of the row that created each key.
   * (`Object.entries` would list integer-like keys first; the model keeps
   * insertion order throughout.)
   */
  method GroupRows<T>(rows: seq<T>, key: T -> string, amount: T -> real)
    returns (grouped: map<string, real>, order: seq<string>, ghost firstAt: seq<int>)
    ensures Grouping(rows, key, amount, |rows|, grouped, order, firstAt)
  {
    grouped, order, firstAt := map[], [], [];
    var i := 0;
    while i < |rows|
      invariant 0 <= i <= |rows|
      invariant Grouping(rows, key, amount, i, grouped, order, firstAt)
    {
      grouped, order, firstAt := GroupRow(rows, key, amount, i, grouped, order, firstAt);
      i := i + 1;
    }
  }

  /** Once every row is in, the points of `grouped` have all the properties `GroupRevenue` promises. */
  lemma GroupRevenueDone<T>(rows: seq<T>, key: T -> string, amount: T -> real,
                            grouped: map<string, real>, order: seq<string>, firstAt: seq<int>)
    requires Grouping(rows, key, amount, |rows|, grouped, order, firstAt)
    ensures forall p :: 0 <= p < |order| ==> order[p] in grouped
    ensures forall i, j :: 0 <= i < j < |order| ==> Points(order, grouped)[i].period != Points(order, grouped)[j].period
    ensures forall i :: 0 <= i < |order| ==>
      Points(order, grouped)[i].revenue == BucketSum(rows, key, amount, Points(order, grouped)[i].period)
    ensures forall j :: 0 <= j < |rows| ==> key(rows[j]) in Periods(Points(order, grouped))
    ensures forall i :: 0 <= i < |order| ==> Points(order, grouped)[i].period in Keys(rows, key)
    ensures Seqs.SumBy(Points(order, grouped), PointRevenue) == Seqs.SumBy(rows, amount)
  {
    assert rows[..|rows|] == rows;
    PointsTotal(order, grouped);
    GroupDoneSums(rows, key, amount, grouped, order);
    GroupDoneKeys(rows, key, order, firstAt, grouped);
  }

  /** Once every row is in, no key is listed twice and each point carries its bucket's sum. */
  lemma GroupDoneSums<T>(rows: seq<T>, key: T -> string, amount: T -> real,
                         grouped: map<string, real>, order: seq<string>)
    requires DistinctStrings(order)
    requires SumsSoFar(rows, key, amount, |rows|, grouped, order)
    requires forall p :: 0 <= p < |order| ==> order[p] in grouped
    ensures var points := Points(order, grouped);
      && (forall i, j :: 0 <= i < j < |points| ==> points[i].period != points[j].period)
      && (forall i :: 0 <= i < |points| ==> points[i].revenue == BucketSum(rows, key, amount, points[i].period))
  {
    assert rows[..|rows|] == rows;
  }

  /** The periods of a list of points, in order. */
  function Periods(points: seq<ChartPoint>): (ks: seq<string>)
    ensures |ks| == |points| && forall i :: 0 <= i < |points| ==> ks[i] == points[i].period
  {
    seq(|points|, i requires 0 <= i < |points| => points[i].period)
  }

  /** The key of every row, in order. */
  function Keys<T>(rows: seq<T>, key: T -> string): (ks: seq<string>)
    ensures |ks| == |rows| && forall j :: 0 <= j < |rows| ==> ks[j] == key(rows[j])
  {
    seq(|rows|, j requires 0 <= j < |rows| => key(rows[j]))
  }

  /** Once every row is in, the points' periods are exactly the keys of the rows. */
  lemma GroupDoneKeys<T>(rows: seq<T>, key: T -> string, order: seq<string>, firstAt: seq<int>, grouped: map<string, real>)
    requires KeysSeen(rows, key, |rows|, order, firstAt)
    requires forall p :: 0 <= p < |order| ==> order[p] in grouped
    ensures Periods(Points(order, grouped)) == order
    ensures forall j :: 0 <= j < |rows| ==> key(rows[j]) in Periods(Points(order, grouped))
    ensures forall p :: 0 <= p < |order| ==> Points(order, grouped)[p].period in Keys(rows, key)
  {
    assert Periods(Points(order, grouped)) == order;
    forall p | 0 <= p < |order| ensures Points(order, grouped)[p].period in Keys(rows, key) {
      assert Keys(rows, key)[firstAt[p]] == order[p];
    }
  }

  /** `fetchRevenueChartData` after the query: no points when it fails, otherwise the buckets of the chosen period. */
  method RevenueChart(rows: Option<seq<ChartRow>>, period: Period) returns (points: seq<ChartPoint>)
    ensures rows.None? ==> points == []
    ensures rows.Some? ==> Seqs.SumBy(points, PointRevenue) == Seqs.SumBy(rows.value, ChartAmount)
    ensures rows.Some? ==> forall i :: 0 <= i < |points| ==>
      points[i].revenue == BucketSum(rows.value, ChartKeyFn(period), ChartAmount, points[i].period)
    ensures rows.Some? ==> forall i, j :: 0 <= i < j < |points| ==> points[i].period != points[j].period
    ensures rows.Some? ==> forall j :: 0 <= j < |rows.value| ==> ChartKeyFn(period)(rows.value[j]) in Periods(points)
    ensures rows.Some? ==> forall i :: 0 <= i < |points| ==> points[i].period in Keys(rows.value, ChartKeyFn(period))
  {
    if rows.None? {
      return [];
    }
    points := GroupRevenue(rows.value, ChartKeyFn(period), ChartAmount);
  }

  // Top-selling products: the `forEach` that groups sold items by product name.

  /** A sold item joined with its transaction's `created_at`; each field may be missing. */
  datatype SaleItem = SaleItem(
    productName: Option<string>, quantity: Option<int>, subtotal: Option<real>,
    productId: Option<string>, txDate: Option<string>)

  /** A product row of the details query: id, icon and category name. */
  datatype DetailRow = DetailRow(id: string, icon: Option<string>, categoryName: Option<string>)

  datatype ProductDetails = ProductDetails(icon: Option<string>, categoryName: string)

  datatype TopProduct = TopProduct(
    productName: string, icon: Option<string>, categoryName: string, totalSold: int, totalRevenue: real)

  /** The grouping key `item.product_name || "Unknown"`: a missing or empty name becomes "Unknown". */
  function ProductKey(item: SaleItem): (k: string)
    ensures k != []
    ensures item.productName.Some? && item.productName.value != [] ==> k == item.productName.value
    ensures item.productName.None? || item.productName.value == [] ==> k == "Unknown"
  {
    if item.productName.Some? && item.productName.value != [] then item.productName.value else "Unknown"
  }

  /** `item.quantity || 0`. */
  function ItemQuantity(item: SaleItem): int {
    item.quantity.GetOr(0)
  }

  /** `Number(item.subtotal) || 0`; a subtotal that is not a number is `None`. */
  function ItemRevenue(item: SaleItem): real {
    item.subtotal.GetOr(0.0)
  }

  function TotalSold(t: TopProduct): int {
    t.totalSold
  }

  /** The date filter: a present, non-empty `created_at` between the range's ends, compared as strings. */
  predicate InPeriod(item: SaleItem, start: string, end: string) {
    match item.txDate
    case None => false
    case Some(d) => d != [] && Text.LexLe(start, d) && Text.LexLe(d, end)
  }

  function ItemsInPeriod(items: seq<SaleItem>, start: string, end: string): seq<SaleItem> {
    Seqs.Filter(items, (item: SaleItem) => InPeriod(item, start, end))
  }

  /** Whether `productIds` (the distinct truthy product ids) is non-empty. */
  predicate AnyProductId(items: seq<SaleItem>) {
    exists i :: 0 <= i < |items| && items[i].productId.Some? && items[i].productId.value != []
  }

  function RowDetails(row: DetailRow): (d: ProductDetails)
    ensures d.icon == row.icon
    ensures row.categoryName.Some? && row.categoryName.value != [] ==> d.categoryName == row.categoryName.value
    ensures row.categoryName.None? || row.categoryName.value == [] ==> d.categoryName == "Uncategorized"
  {
    ProductDetails(row.icon, if row.categoryName.Some? && row.categoryName.value != [] then row.categoryName.value else "Uncategorized")
  }

  /** `Object.fromEntries` over the product rows: every id gets the details of the last row carrying it. */
  function ProductMap(rows: seq<DetailRow>): (m: map<string, ProductDetails>)
    ensures forall id :: id in m <==> exists i :: 0 <= i < |rows| && rows[i].id == id
  {
    if rows == [] then map[]
    else
      var n := |rows| - 1;
      var m := ProductMap(rows[..n]);
      assert forall i :: 0 <= i < n ==> rows[..n][i] == rows[i];
      m[rows[n].id := RowDetails(rows[n])]
  }

  /** A later row with the same id replaces an earlier one. */
  lemma {:induction false} ProductMapLastWins(rows: seq<DetailRow>, i: int)
    requires 0 <= i < |rows|
    requires forall j :: i < j < |rows| ==> rows[j].id != rows[i].id
    ensures rows[i].id in ProductMap(rows) && ProductMap(rows)[rows[i].id] == RowDetails(rows[i])
  {
    var n := |rows| - 1;
    var front := rows[..n];
    var m := ProductMap(front);
    assert ProductMap(rows) == m[rows[n].id := RowDetails(rows[n])];
    if i < n {
      assert front[i] == rows[i];
      assert forall j :: i < j < n ==> front[j].id != front[i].id by {
        forall j | i < j < n ensures front[j].id != front[i].id {
          assert front[j] == rows[j];
        }
      }
      ProductMapLastWins(front, i);
      assert rows[n].id != rows[i].id;
    }
  }

  /** `productMap`: filled only when some item has a product id and the details query succeeded; otherwise empty. */
  function ProductMapFor(items: seq<SaleItem>, details: Option<seq<DetailRow>>): (m: map<string, ProductDetails>)
    ensures !AnyProductId(items) || details.None? ==> m == map[]
  {
    if AnyProductId(items) && details.Some? then ProductMap(details.value) else map[]
  }

  /** `productMap[item.product_id] || {icon: null, category_name: "Uncategorized"}`. */
  function DetailsFor(productMap: map<string, ProductDetails>, item: SaleItem): (d: ProductDetails)
    ensures item.productId.Some? && item.productId.value in productMap ==> d == productMap[item.productId.value]
    ensures item.productId.None? || item.productId.value !in productMap ==> d == ProductDetails(None, "Uncategorized")
  {
    if item.productId.Some? && item.productId.value in productMap then productMap[item.productId.value]
    else ProductDetails(None, "Uncategorized")
  }

  /** The integer counterpart of `BucketSum`. */
  function BucketCount<T>(rows: seq<T>, key: T -> string, amount: T -> int, k: string): int {
    if rows == [] then 0
    else
      var n := |rows| - 1;
      BucketCount(rows[..n], key, amount, k) + (if key(rows[n]) == k then amount(rows[n]) else 0)
  }

  /** A bucket's count is the integer sum over the rows that `filter` keeps for its key. */
  lemma {:induction false} BucketCountIsFilteredSum<T>(rows: seq<T>, key: T -> string, amount: T -> int, k: string)
    ensures BucketCount(rows, key, amount, k) == Seqs.SumIntBy(Seqs.Filter(rows, KeyIs(key, k)), amount)
  {
    if rows != [] {
      var n := |rows| - 1;
      BucketCountIsFilteredSum(rows[..n], key, amount, k);
      assert rows == rows[..n] + [rows[n]];
      Seqs.FilterAppend(rows[..n], [rows[n]], KeyIs(key, k));
      assert [rows[n]][1..] == [];
      var kept := Seqs.Filter(rows[..n], KeyIs(key, k));
      assert KeyIs(key, k)(rows[n]) == (key(rows[n]) == k);
      if key(rows[n]) == k {
        assert Seqs.Filter([rows[n]], KeyIs(key, k)) == [rows[n]];
        Seqs.SumIntByAppend(kept, [rows[n]], amount);
      } else {
        assert Seqs.Filter([rows[n]], KeyIs(key, k)) == [];
        assert kept + [] == kept;
      }
    }
  }

  lemma {:induction false} BucketCountAbsent<T>(rows: seq<T>, key: T -> string, amount: T -> int, k: string)
    requires forall j :: 0 <= j < |rows| ==> key(rows[j]) != k
    ensures BucketCount(rows, key, amount, k) == 0
  {
    if rows != [] {
      BucketCountAbsent(rows[..|rows| - 1], key, amount, k);
    }
  }

  /** The index of the first row whose key is `k`, or `|rows|` when there is none. */
  function FirstIndex<T>(rows: seq<T>, key: T -> string, k: string): (r: int)
    ensures 0 <= r <= |rows|
    ensures r < |rows| ==> key(rows[r]) == k
    ensures forall j :: 0 <= j < r ==> key(rows[j]) != k
  {
    if rows == [] then 0
    else if key(rows[0]) == k then 0
    else
      var r := FirstIndex(rows[1..], key, k);
      assert forall j :: 0 < j <= r ==> rows[j] == rows[1..][j - 1];
      1 + r
  }

  lemma FirstIndexAt<T>(rows: seq<T>, key: T -> string, k: string, j: int)
    requires 0 <= j < |rows| && key(rows[j]) == k
    requires forall j' :: 0 <= j' < j ==> key(rows[j']) != k
    ensures FirstIndex(rows, key, k) == j
  {
  }

  function Names(groups: seq<TopProduct>): (ks: seq<string>)
    ensures |ks| == |groups| && forall i :: 0 <= i < |groups| ==> ks[i] == groups[i].productName
  {
    seq(|groups|, i requires 0 <= i < |groups| => groups[i].productName)
  }

  /** The item joins an existing group. */
  function AddToGroup(g: TopProduct, item: SaleItem): (r: TopProduct)
    ensures r.productName == g.productName && r.icon == g.icon && r.categoryName == g.categoryName
    ensures r.totalSold == g.totalSold + ItemQuantity(item)
    ensures r.totalRevenue == g.totalRevenue + ItemRevenue(item)
  {
    g.(totalSold := g.totalSold + ItemQuantity(item), totalRevenue := g.totalRevenue + ItemRevenue(item))
  }

  /** The empty group opened for a name first met at `item`, with that item's product details. */
  function NewGroup(productMap: map<string, ProductDetails>, item: SaleItem): (g: TopProduct)
    ensures g.productName == ProductKey(item)
    ensures g.icon == DetailsFor(productMap, item).icon
    ensures g.categoryName == DetailsFor(productMap, item).categoryName
    ensures g.totalSold == 0 && g.totalRevenue == 0.0
  {
    var d := DetailsFor(productMap, item);
    TopProduct(ProductKey(item), d.icon, d.categoryName, 0, 0.0)
  }

  /** `grouped` after the first `i` items: named by its key, with that key's totals so far. */
  ghost predicate ProductTotalsSoFar(items: seq<SaleItem>, i: int, grouped: map<string, TopProduct>)
    requires 0 <= i <= |items|
  {
    forall k :: k in grouped ==>
      && grouped[k].productName == k
      && grouped[k].totalSold == BucketCount(items[..i], ProductKey, ItemQuantity, k)
      && grouped[k].totalRevenue == BucketSum(items[..i], ProductKey, ItemRevenue, k)
  }

  /** The groups in `order` carry the details of the product of their first item. */
  ghost predicate ProductDetailsSoFar(items: seq<SaleItem>, productMap: map<string, ProductDetails>,
                                      grouped: map<string, TopProduct>, order: seq<string>, firstAt: seq<int>)
  {
    forall p :: 0 <= p < |order| && p < |firstAt| && 0 <= firstAt[p] < |items| && order[p] in grouped ==>
      && grouped[order[p]].icon == DetailsFor(productMap, items[firstAt[p]]).icon
      && grouped[order[p]].categoryName == DetailsFor(productMap, items[firstAt[p]]).categoryName
  }

  lemma BucketCountStep<T>(rows: seq<T>, key: T -> string, amount: T -> int, i: int, k: string)
    requires 0 <= i < |rows|
    ensures BucketCount(rows[..i + 1], key, amount, k)
         == BucketCount(rows[..i], key, amount, k) + (if key(rows[i]) == k then amount(rows[i]) else 0)
  {
    assert rows[..i + 1][..i] == rows[..i];
  }

  lemma BucketSumStep<T>(rows: seq<T>, key: T -> string, amount: T -> real, i: int, k: string)
    requires 0 <= i < |rows|
    ensures BucketSum(rows[..i + 1], key, amount, k)
         == BucketSum(rows[..i], key, amount, k) + (if key(rows[i]) == k then amount(rows[i]) else 0.0)
  {
    assert rows[..i + 1][..i] == rows[..i];
  }

  lemma ProductTotalsStep(items: seq<SaleItem>, i: int, grouped: map<string, TopProduct>, start: TopProduct)
    requires 0 <= i < |items|
    requires ProductTotalsSoFar(items, i, grouped)
    requires start.productName == ProductKey(items[i])
    requires ProductKey(items[i]) in grouped ==> start == grouped[ProductKey(items[i])]
    requires ProductKey(items[i]) !in grouped ==>
      start.totalSold == 0 && start.totalRevenue == 0.0 && forall j :: 0 <= j < i ==> ProductKey(items[j]) != ProductKey(items[i])
    ensures ProductTotalsSoFar(items, i + 1, grouped[ProductKey(items[i]) := AddToGroup(start, items[i])])
  {
    var k0 := ProductKey(items[i]);
    if k0 !in grouped {
      forall j | 0 <= j < i ensures ProductKey(items[..i][j]) != k0 {
        assert items[..i][j] == items[j];
      }
      BucketCountAbsent(items[..i], ProductKey, ItemQuantity, k0);
      BucketSumAbsent(items[..i], ProductKey, ItemRevenue, k0);
    }
    var g := grouped[k0 := AddToGroup(start, items[i])];
    forall k | k in g
      ensures g[k].productName == k
      ensures g[k].totalSold == BucketCount(items[..i + 1], ProductKey, ItemQuantity, k)
      ensures g[k].totalRevenue == BucketSum(items[..i + 1], ProductKey, ItemRevenue, k)
    {
      BucketCountStep(items, ProductKey, ItemQuantity, i, k);
      BucketSumStep(items, ProductKey, ItemRevenue, i, k);
    }
  }

  lemma ProductDetailsExisting(items: seq<SaleItem>, productMap: map<string, ProductDetails>, i: int,
                               grouped: map<string, TopProduct>, order: seq<string>, firstAt: seq<int>)
    requires 0 <= i < |items| && ProductKey(items[i]) in grouped
    requires ProductDetailsSoFar(items, productMap, grouped, order, firstAt)
    ensures ProductDetailsSoFar(items, productMap,
      grouped[ProductKey(items[i]) := AddToGroup(grouped[ProductKey(items[i])], items[i])], order, firstAt)
  {
  }

  lemma ProductDetailsNew(items: seq<SaleItem>, productMap: map<string, ProductDetails>, i: int,
                          grouped: map<string, TopProduct>, order: seq<string>, firstAt: seq<int>)
    requires 0 <= i < |items| && ProductKey(items[i]) !in order
    requires ProductDetailsSoFar(items, productMap, grouped, order, firstAt)
    requires |firstAt| == |order|
    ensures ProductDetailsSoFar(items, productMap,
      grouped[ProductKey(items[i]) := AddToGroup(NewGroup(productMap, items[i]), items[i])],
      order + [ProductKey(items[i])], firstAt + [i])
  {
    var k0 := ProductKey(items[i]);
    var o := order + [k0];
    var f := firstAt + [i];
    forall p | 0 <= p < |o| && p < |f| && 0 <= f[p] < |items| && o[p] in grouped[k0 := AddToGroup(NewGroup(productMap, items[i]), items[i])]
      ensures grouped[k0 := AddToGroup(NewGroup(productMap, items[i]), items[i])][o[p]].icon == DetailsFor(productMap, items[f[p]]).icon
      ensures grouped[k0 := AddToGroup(NewGroup(productMap, items[i]), items[i])][o[p]].categoryName == DetailsFor(productMap, items[f[p]]).categoryName
    {
      if p < |order| {
        assert o[p] == order[p] && f[p] == firstAt[p];
        assert order[p] != k0;
      }
    }
  }

  /** `Object.values(grouped)`, taken in the order the keys were first added (integer-like keys are not moved first). */
  function Values(order: seq<string>, grouped: map<string, TopProduct>): (groups: seq<TopProduct>)
    requires forall p :: 0 <= p < |order| ==> order[p] in grouped
    ensures |groups| == |order|
    ensures forall p :: 0 <= p < |order| ==> groups[p] == grouped[order[p]]
  {
    seq(|order|, p requires 0 <= p < |order| => grouped[order[p]])
  }

  /**
   * `g` is the group of the items named `g.productName`: some item has that
   * name, the icon and category come from the first such item's product, and
   * the totals add up the quantities and subtotals of all such items.
   */
  ghost predicate IsProductGroup(items: seq<SaleItem>, productMap: map<string, ProductDetails>, g: TopProduct) {
    var first := FirstIndex(items, ProductKey, g.productName);
    && first < |items|
    && g.icon == DetailsFor(productMap, items[first]).icon
    && g.categoryName == DetailsFor(productMap, items[first]).categoryName
    && g.totalSold == BucketCount(items, ProductKey, ItemQuantity, g.productName)
    && g.totalRevenue == BucketSum(items, ProductKey, ItemRevenue, g.productName)
  }

  /**
   * The grouping `forEach` and `Object.values(grouped)`: one group per product
   * name, in the order the names first occur, each the group of its name.
   */
  method GroupByProduct(items: seq<SaleItem>, productMap: map<string, ProductDetails>) returns (groups: seq<TopProduct>)
    ensures DistinctStrings(Names(groups))
    ensures forall j :: 0 <= j < |items| ==> ProductKey(items[j]) in Names(groups)
    ensures forall p :: 0 <= p < |groups| ==> IsProductGroup(items, productMap, groups[p])
    ensures forall p, q :: 0 <= p < q < |groups| ==>
      FirstIndex(items, ProductKey, groups[p].productName) < FirstIndex(items, ProductKey, groups[q].productName)
  {
    var grouped, order, firstAt := GroupProducts(items, productMap);
    groups := Values(order, grouped);
    GroupByProductDone(items, productMap, grouped, order, firstAt);
  }

  /**
   * The `forEach` that fills the `grouped` object: `order` lists its keys in
   * insertion order, which is the order `Object.values` returns them in, and
   * `firstAt` the index of the item that created each key.
   */
  method GroupProducts(items: seq<SaleItem>, productMap: map<string, ProductDetails>)
    returns (grouped: map<string, TopProduct>, order: seq<string>, ghost firstAt: seq<int>)
    ensures ProductGrouping(items, productMap, |items|, grouped, order, firstAt)
  {
    grouped, order, firstAt := map[], [], [];
    var i := 0;
    while i < |items|
      invariant 0 <= i <= |items|
      invariant ProductGrouping(items, productMap, i, grouped, order, firstAt)
    {
      var k := ProductKey(items[i]);
      if k in grouped {
        ProductGroupExisting(items, productMap, i, grouped, order, firstAt);
        grouped := grouped[k := AddToGroup(grouped[k], items[i])];
      } else {
        ProductGroupNew(items, productMap, i, grouped, order, firstAt);
        grouped := grouped[k := AddToGroup(NewGroup(productMap, items[i]), items[i])];
        order := order + [k];
        firstAt := firstAt + [i];
      }
      i := i + 1;
    }
  }

  /** Everything the product grouping loop keeps after the first `i` items. */
  ghost predicate ProductGrouping(items: seq<SaleItem>, productMap: map<string, ProductDetails>, i: int,
                                  grouped: map<string, TopProduct>, order: seq<string>, firstAt: seq<int>)
    requires 0 <= i <= |items|
  {
    && KeysSeen(items, ProductKey, i, order, firstAt)
    && (forall k :: k in grouped <==> k in order)
    && ProductTotalsSoFar(items, i, grouped)
    && ProductDetailsSoFar(items, productMap, grouped, order, firstAt)
  }

  /** One turn of the loop for an item whose name already has a group: add its quantity and subtotal. */
  lemma ProductGroupExisting(items: seq<SaleItem>, productMap: map<string, ProductDetails>, i: int,
                             grouped: map<string, TopProduct>, order: seq<string>, firstAt: seq<int>)
    requires 0 <= i < |items| && ProductKey(items[i]) in grouped
    requires ProductGrouping(items, productMap, i, grouped, order, firstAt)
    ensures ProductGrouping(items, productMap, i + 1,
      grouped[ProductKey(items[i]) := AddToGroup(grouped[ProductKey(items[i])], items[i])], order, firstAt)
  {
    ProductTotalsStep(items, i, grouped, grouped[ProductKey(items[i])]);
    ProductDetailsExisting(items, productMap, i, grouped, order, firstAt);
    KeysSeenExisting(items, ProductKey, i, order, firstAt);
  }

  /** One turn of the loop for an item with a new name: open its group, then add its quantity and subtotal. */
  lemma ProductGroupNew(items: seq<SaleItem>, productMap: map<string, ProductDetails>, i: int,
                        grouped: map<string, TopProduct>, order: seq<string>, firstAt: seq<int>)
    requires 0 <= i < |items| && ProductKey(items[i]) !in grouped
    requires ProductGrouping(items, productMap, i, grouped, order, firstAt)
    ensures ProductGrouping(items, productMap, i + 1,
      grouped[ProductKey(items[i]) := AddToGroup(NewGroup(productMap, items[i]), items[i])],
      order + [ProductKey(items[i])], firstAt + [i])
  {
    var k := ProductKey(items[i]);
    forall j | 0 <= j < i ensures ProductKey(items[j]) != k {
      assert ProductKey(items[j]) in order;
    }
    ProductTotalsStep(items, i, grouped, NewGroup(productMap, items[i]));
    ProductDetailsNew(items, productMap, i, grouped, order, firstAt);
    KeysSeenNew(items, ProductKey, i, order, firstAt);
  }


  lemma GroupByProductDone(items: seq<SaleItem>, productMap: map<string, ProductDetails>,
                           grouped: map<string, TopProduct>, order: seq<string>, firstAt: seq<int>)
    requires ProductGrouping(items, productMap, |items|, grouped, order, firstAt)
    ensures forall p :: 0 <= p < |order| ==> order[p] in grouped
    ensures Names(Values(order, grouped)) == order
    ensures DistinctStrings(Names(Values(order, grouped)))
    ensures forall j :: 0 <= j < |items| ==> ProductKey(items[j]) in Names(Values(order, grouped))
    ensures forall p :: 0 <= p < |order| ==> IsProductGroup(items, productMap, Values(order, grouped)[p])
    ensures forall p, q :: 0 <= p < q < |order| ==>
      FirstIndex(items, ProductKey, Values(order, grouped)[p].productName)
        < FirstIndex(items, ProductKey, Values(order, grouped)[q].productName)
  {
    GroupByProductNames(items, grouped, order, firstAt);
    GroupByProductFirst(items, grouped, order, firstAt);
    forall p | 0 <= p < |order| ensures IsProductGroup(items, productMap, Values(order, grouped)[p]) {
      GroupByProductOne(items, productMap, grouped, order, firstAt, p);
    }
  }

  lemma GroupByProductNames(items: seq<SaleItem>, grouped: map<string, TopProduct>, order: seq<string>, firstAt: seq<int>)
    requires KeysSeen(items, ProductKey, |items|, order, firstAt)
    requires forall k :: k in grouped <==> k in order
    requires ProductTotalsSoFar(items, |items|, grouped)
    ensures forall p :: 0 <= p < |order| ==> order[p] in grouped
    ensures Names(Values(order, grouped)) == order
  {
    assert forall p :: 0 <= p < |order| ==> order[p] in grouped;
    var groups := Values(order, grouped);
    forall p | 0 <= p < |order| ensures Names(groups)[p] == order[p] {
      assert groups[p] == grouped[order[p]];
    }
  }

  lemma GroupByProductFirst(items: seq<SaleItem>, grouped: map<string, TopProduct>, order: seq<string>, firstAt: seq<int>)
    requires KeysSeen(items, ProductKey, |items|, order, firstAt)
    requires forall p :: 0 <= p < |order| ==> order[p] in grouped && grouped[order[p]].productName == order[p]
    ensures forall p :: 0 <= p < |order| ==> FirstIndex(items, ProductKey, order[p]) == firstAt[p]
  {
    forall p | 0 <= p < |order| ensures FirstIndex(items, ProductKey, order[p]) == firstAt[p] {
      FirstIndexAt(items, ProductKey, order[p], firstAt[p]);
    }
  }

  lemma GroupByProductOne(items: seq<SaleItem>, productMap: map<string, ProductDetails>,
                          grouped: map<string, TopProduct>, order: seq<string>, firstAt: seq<int>, p: int)
    requires 0 <= p < |order|
    requires KeysSeen(items, ProductKey, |items|, order, firstAt)
    requires forall k :: k in grouped <==> k in order
    requires ProductTotalsSoFar(items, |items|, grouped)
    requires ProductDetailsSoFar(items, productMap, grouped, order, firstAt)
    requires FirstIndex(items, ProductKey, order[p]) == firstAt[p]
    ensures order[p] in grouped && IsProductGroup(items, productMap, grouped[order[p]])
  {
    assert items[..|items|] == items;
    assert order[p] in grouped;
  }

  lemma DistinctNamesNoDup(groups: seq<TopProduct>)
    requires DistinctStrings(Names(groups))
    ensures Seqs.NoDup(groups)
  {
    forall i, j | 0 <= i < j < |groups| ensures groups[i] != groups[j] {
      assert Names(groups)[i] != Names(groups)[j];
    }
  }

  /**
   * `fetchTopSellingProducts` after the queries: no products when the item
   * query fails; otherwise the items of the period grouped by name, sorted by
   * units sold (most first) and cut to five. Every
   * name sold in the period is listed, or five names that sold no fewer units are.
   */
  method TopSellingProducts(queried: Option<seq<SaleItem>>, start: string, end: string, details: Option<seq<DetailRow>>)
    returns (top: seq<TopProduct>)
    ensures queried.None? ==> top == []
    ensures |top| <= 5
    ensures Seqs.SortedDesc(top, TotalSold)
    ensures DistinctStrings(Names(top))
    ensures queried.Some? ==>
      var items := ItemsInPeriod(queried.value, start, end);
      forall i :: 0 <= i < |top| ==> IsProductGroup(items, ProductMapFor(items, details), top[i])
    ensures queried.Some? ==>
      var items := ItemsInPeriod(queried.value, start, end);
      forall j :: 0 <= j < |items| ==>
        ProductKey(items[j]) in Names(top)
        || (|top| == 5 && forall i :: 0 <= i < |top| ==>
              top[i].totalSold >= BucketCount(items, ProductKey, ItemQuantity, ProductKey(items[j])))
  {
    if queried.None? {
      return [];
    }
    var items := ItemsInPeriod(queried.value, start, end);
    var productMap := ProductMapFor(items, details);
    var groups := GroupByProduct(items, productMap);
    top := Seqs.Take(Seqs.SortDesc(groups, TotalSold), 5);
    TopProductsDone(items, productMap, groups, top);
    TopProductsComplete(items, productMap, groups, top);
  }

  /** What the five best sellers inherit from the groups they are taken from. */
  lemma TopProductsDone(items: seq<SaleItem>, productMap: map<string, ProductDetails>, groups: seq<TopProduct>, top: seq<TopProduct>)
    requires top == Seqs.Take(Seqs.SortDesc(groups, TotalSold), 5)
    requires DistinctStrings(Names(groups))
    requires forall p :: 0 <= p < |groups| ==> IsProductGroup(items, productMap, groups[p])
    ensures |top| <= 5
    ensures Seqs.SortedDesc(top, TotalSold)
    ensures DistinctStrings(Names(top))
    ensures forall i :: 0 <= i < |top| ==> IsProductGroup(items, productMap, top[i])
  {
    Seqs.TopOfSorted(groups, TotalSold, 5);
    TopProductsDistinct(groups, top);
    TopProductsGroups(items, productMap, groups, top);
  }

  /** Every name sold is among the five best sellers, or five names that sold no fewer units are. */
  lemma TopProductsComplete(items: seq<SaleItem>, productMap: map<string, ProductDetails>, groups: seq<TopProduct>, top: seq<TopProduct>)
    requires top == Seqs.Take(Seqs.SortDesc(groups, TotalSold), 5)
    requires forall j :: 0 <= j < |items| ==> ProductKey(items[j]) in Names(groups)
    requires forall p :: 0 <= p < |groups| ==> IsProductGroup(items, productMap, groups[p])
    ensures forall j :: 0 <= j < |items| ==>
        ProductKey(items[j]) in Names(top)
        || (|top| == 5 && forall i :: 0 <= i < |top| ==>
              top[i].totalSold >= BucketCount(items, ProductKey, ItemQuantity, ProductKey(items[j])))
  {
    TopProductsLeftOutAll(groups, top);
    TopProductsCover(items, productMap, groups, top);
  }

  lemma TopProductsLeftOutAll(groups: seq<TopProduct>, top: seq<TopProduct>)
    requires top == Seqs.Take(Seqs.SortDesc(groups, TotalSold), 5)
    ensures forall p :: 0 <= p < |groups| && groups[p].productName !in Names(top) ==>
      |top| == 5 && forall i :: 0 <= i < |top| ==> top[i].totalSold >= groups[p].totalSold
  {
    forall p | 0 <= p < |groups| && groups[p].productName !in Names(top)
      ensures |top| == 5 && forall i :: 0 <= i < |top| ==> top[i].totalSold >= groups[p].totalSold
    {
      TopProductsLeftOut(groups, top, p);
    }
  }

  lemma TopProductsGroups(items: seq<SaleItem>, productMap: map<string, ProductDetails>, groups: seq<TopProduct>, top: seq<TopProduct>)
    requires forall i :: 0 <= i < |top| ==> top[i] in groups
    requires forall p :: 0 <= p < |groups| ==> IsProductGroup(items, productMap, groups[p])
    ensures forall i :: 0 <= i < |top| ==> IsProductGroup(items, productMap, top[i])
  {
    forall i | 0 <= i < |top| ensures IsProductGroup(items, productMap, top[i]) {
      var p :| 0 <= p < |groups| && groups[p] == top[i];
    }
  }

  lemma TopProductsCover(items: seq<SaleItem>, productMap: map<string, ProductDetails>, groups: seq<TopProduct>, top: seq<TopProduct>)
    requires forall p :: 0 <= p < |groups| && groups[p].productName !in Names(top) ==>
      |top| == 5 && forall i :: 0 <= i < |top| ==> top[i].totalSold >= groups[p].totalSold
    requires forall j :: 0 <= j < |items| ==> ProductKey(items[j]) in Names(groups)
    requires forall p :: 0 <= p < |groups| ==> IsProductGroup(items, productMap, groups[p])
    ensures forall j :: 0 <= j < |items| ==>
        ProductKey(items[j]) in Names(top)
        || (|top| == 5 && forall i :: 0 <= i < |top| ==>
              top[i].totalSold >= BucketCount(items, ProductKey, ItemQuantity, ProductKey(items[j])))
  {
    forall j | 0 <= j < |items| && ProductKey(items[j]) !in Names(top)
      ensures |top| == 5 && forall i :: 0 <= i < |top| ==>
        top[i].totalSold >= BucketCount(items, ProductKey, ItemQuantity, ProductKey(items[j]))
    {
      var k := ProductKey(items[j]);
      assert k in Names(groups);
      var p :| 0 <= p < |Names(groups)| && Names(groups)[p] == k;
      assert groups[p].productName !in Names(top);
    }
  }

  lemma TopProductsDistinct(groups: seq<TopProduct>, top: seq<TopProduct>)
    requires top == Seqs.Take(Seqs.SortDesc(groups, TotalSold), 5)
    requires DistinctStrings(Names(groups))
    ensures DistinctStrings(Names(top))
  {
    Seqs.TopOfSorted(groups, TotalSold, 5);
    DistinctNamesNoDup(groups);
    Seqs.TopNoDup(groups, TotalSold, 5);
    forall i, j | 0 <= i < j < |top| ensures Names(top)[i] != Names(top)[j] {
      var p :| 0 <= p < |groups| && groups[p] == top[i];
      var q :| 0 <= q < |groups| && groups[q] == top[j];
      assert top[i] != top[j];
      assert Names(groups)[p] != Names(groups)[q] || p == q;
    }
  }

  /** A group whose name is not among the top five sold no more units than any of them. */
  lemma TopProductsLeftOut(groups: seq<TopProduct>, top: seq<TopProduct>, p: int)
    requires top == Seqs.Take(Seqs.SortDesc(groups, TotalSold), 5)
    requires 0 <= p < |groups| && groups[p].productName !in Names(top)
    ensures |top| == 5 && forall i :: 0 <= i < |top| ==> top[i].totalSold >= groups[p].totalSold
  {
    var g := groups[p];
    forall i | 0 <= i < |top| ensures top[i] != g {
      assert Names(top)[i] != g.productName;
    }
    Seqs.TopLeftOut(groups, TotalSold, 5, g);
  }

  // Slow-moving items: products without a sale in the last 30 days.

  /** A product row of the slow-moving query; `updated_at` read as milliseconds since the epoch. */
  datatype StockRow = StockRow(id: string, name: string, stockQuantity: Option<int>, updatedAt: int)

  datatype SlowMovingItem = SlowMovingItem(productName: string, stockQuantity: int, daysWithoutSales: int)

  /** `Math.floor((today - updated) / 86400000)`. */
  function DaysWithoutSales(now: int, updatedAt: int): (d: int)
    ensures d * Calendar.MsPerDay <= now - updatedAt < (d + 1) * Calendar.MsPerDay
  {
    (now - updatedAt) / Calendar.MsPerDay
  }

  function SlowItem(p: StockRow, now: int): (item: SlowMovingItem)
    ensures item.productName == p.name
    ensures item.stockQuantity == p.stockQuantity.GetOr(0)
    ensures item.daysWithoutSales == DaysWithoutSales(now, p.updatedAt)
  {
    SlowMovingItem(p.name, p.stockQuantity.GetOr(0), DaysWithoutSales(now, p.updatedAt))
  }

  function DaysOf(item: SlowMovingItem): int {
    item.daysWithoutSales
  }

  /** `!recentProductIds.has(p.id)`: the recent-sales query's product ids, nulls included. */
  predicate NotRecent(p: StockRow, recent: seq<Option<string>>) {
    Some(p.id) !in recent
  }

  /** The filter and map before the sort: one item per product without a recent sale, in product order. */
  function SlowCandidates(products: seq<StockRow>, recent: seq<Option<string>>, now: int): (r: seq<SlowMovingItem>)
    ensures |r| <= |products|
    ensures forall p :: p in products && NotRecent(p, recent) ==> SlowItem(p, now) in r
  {
    if products == [] then []
    else
      var rest := SlowCandidates(products[1..], recent, now);
      assert forall p :: p in products ==> p == products[0] || p in products[1..];
      if NotRecent(products[0], recent) then [SlowItem(products[0], now)] + rest else rest
  }

  /** Each candidate is the item of some product without a recent sale. */
  lemma {:induction false} SlowCandidatesSource(products: seq<StockRow>, recent: seq<Option<string>>, now: int, x: SlowMovingItem)
    requires x in SlowCandidates(products, recent, now)
    ensures exists p :: p in products && NotRecent(p, recent) && x == SlowItem(p, now)
  {
    var rest := SlowCandidates(products[1..], recent, now);
    if x in rest {
      SlowCandidatesSource(products[1..], recent, now, x);
      var p :| p in products[1..] && NotRecent(p, recent) && x == SlowItem(p, now);
      assert p in products;
    } else {
      assert products[0] in products;
    }
  }

  /**
   * `fetchSlowMovingItems` after the queries: nothing when either query fails;
   * otherwise the products without a recent sale, most days without sales first, at most five.
   */
  function SlowMovingItems(products: Option<seq<StockRow>>, recent: Option<seq<Option<string>>>, now: int): seq<SlowMovingItem>
  {
    if products.None? || recent.None? then []
    else Seqs.Take(Seqs.SortDesc(SlowCandidates(products.value, recent.value, now), DaysOf), 5)
  }

  /**
   * At most five items, longest without sales first; each is a product with no
   * recent sale, and a product with no recent sale that is left out has been
   * without sales no longer than any listed one.
   */
  lemma SlowMovingSpec(products: Option<seq<StockRow>>, recent: Option<seq<Option<string>>>, now: int)
    ensures products.None? || recent.None? ==> SlowMovingItems(products, recent, now) == []
    ensures var r := SlowMovingItems(products, recent, now);
      && |r| <= 5
      && Seqs.SortedDesc(r, DaysOf)
      && (forall i :: 0 <= i < |r| ==>
            exists p :: p in products.value && NotRecent(p, recent.value) && r[i] == SlowItem(p, now))
      && (forall p :: (products.Some? && recent.Some? && p in products.value && NotRecent(p, recent.value)
                       && SlowItem(p, now) !in r) ==>
            |r| == 5 && forall i :: 0 <= i < |r| ==> r[i].daysWithoutSales >= DaysWithoutSales(now, p.updatedAt))
  {
    if products.Some? && recent.Some? {
      var c := SlowCandidates(products.value, recent.value, now);
      Seqs.TopOfSorted(c, DaysOf, 5);
      var r := SlowMovingItems(products, recent, now);
      forall i | 0 <= i < |r| ensures exists p :: p in products.value && NotRecent(p, recent.value) && r[i] == SlowItem(p, now) {
        SlowCandidatesSource(products.value, recent.value, now, r[i]);
      }
    }
  }
}
