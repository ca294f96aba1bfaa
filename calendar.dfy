/**
 * Local calendar dates and instants, standing in for JavaScript `Date`
 * values read with `getFullYear`/`getMonth`/`getDate`/`getDay`/`getHours`.
 * Months count from 0 as `getMonth` does; `setDate` with an out-of-range day
 * rolls over month and year boundaries, which `PrevDay`/`NextDay` spell out.
 * Time zones and daylight-saving shifts are not modelled: every day is
 * 86 400 000 ms long.
 */
module Calendar {

  const MsPerDay: int := 86400000

  datatype Date = Date(year: int, month: int, day: int)

  /** An instant of local time: a date and the milliseconds since its midnight. */
  datatype Instant = Instant(date: Date, ms: int)

  predicate IsLeap(y: int) {
    (y % 4 == 0 && y % 100 != 0) || y % 400 == 0
  }

  function DaysInMonth(y: int, m: int): (n: int)
    requires 0 <= m < 12
    ensures 28 <= n <= 31
  {
    if m == 1 then (if IsLeap(y) then 29 else 28)
    else if m == 3 || m == 5 || m == 8 || m == 10 then 30
    else 31
  }

  predicate ValidDate(d: Date) {
    0 <= d.month < 12 && 1 <= d.day <= DaysInMonth(d.year, d.month)
  }

  predicate ValidInstant(t: Instant) {
    ValidDate(t.date) && 0 <= t.ms < MsPerDay
  }

  /** Calendar order on dates. */
  predicate DateLe(a: Date, b: Date) {
    a.year < b.year
    || (a.year == b.year && a.month < b.month)
    || (a.year == b.year && a.month == b.month && a.day <= b.day)
  }

  predicate DateLt(a: Date, b: Date) {
    DateLe(a, b) && a != b
  }

  /** Time order on instants, as `<=` compares two `Date` objects. */
  predicate InstantLe(a: Instant, b: Instant) {
    DateLt(a.date, b.date) || (a.date == b.date && a.ms <= b.ms)
  }

  predicate InstantLt(a: Instant, b: Instant) {
    InstantLe(a, b) && a != b
  }

  /** Local midnight starting a date (`setHours(0, 0, 0, 0)`). */
  function Midnight(d: Date): Instant {
    Instant(d, 0)
  }

  /** The last millisecond of a date (`setHours(23, 59, 59, 999)`). */
  function EndOfDay(d: Date): Instant {
    Instant(d, MsPerDay - 1)
  }

  /** The day before (`setDate(getDate() - 1)`). */
  function PrevDay(d: Date): Date
    requires ValidDate(d)
  {
    if d.day > 1 then Date(d.year, d.month, d.day - 1)
    else if d.month > 0 then Date(d.year, d.month - 1, DaysInMonth(d.year, d.month - 1))
    else Date(d.year - 1, 11, 31)
  }

  /** The day after (`setDate(getDate() + 1)`). */
  function NextDay(d: Date): Date
    requires ValidDate(d)
  {
    if d.day < DaysInMonth(d.year, d.month) then Date(d.year, d.month, d.day + 1)
    else if d.month < 11 then Date(d.year, d.month + 1, 1)
    else Date(d.year + 1, 0, 1)
  }

  /** Stepping back a day and then forward a day returns to the start, and the other way round. */
  lemma NextPrevInverse(d: Date)
    requires ValidDate(d)
    ensures ValidDate(PrevDay(d)) && NextDay(PrevDay(d)) == d
    ensures ValidDate(NextDay(d)) && PrevDay(NextDay(d)) == d
  {
  }

  /** The previous day is strictly earlier and the next day strictly later. */
  lemma StepOrder(d: Date)
    requires ValidDate(d)
    ensures DateLt(PrevDay(d), d) && DateLt(d, NextDay(d))
  {
  }

  /** `setDate(getDate() - k)`. */
  function MinusDays(d: Date, k: nat): (r: Date)
    requires ValidDate(d)
    ensures ValidDate(r)
    decreases k
  {
    if k == 0 then d else NextPrevInverse(d); MinusDays(PrevDay(d), k - 1)
  }

  /** `setDate(getDate() + k)`. */
  function PlusDays(d: Date, k: nat): (r: Date)
    requires ValidDate(d)
    ensures ValidDate(r)
    decreases k
  {
    if k == 0 then d else NextPrevInverse(d); PlusDays(NextDay(d), k - 1)
  }

  lemma DateLeTrans(a: Date, b: Date, c: Date)
    requires DateLe(a, b) && DateLe(b, c)
    ensures DateLe(a, c)
  {
  }

  lemma DateLtTrans(a: Date, b: Date, c: Date)
    requires DateLe(a, b) && DateLt(b, c)
    ensures DateLt(a, c)
  {
  }

  /** Going back more days lands no later. */
  lemma {:induction false} MinusDaysMonotone(d: Date, j: nat, k: nat)
    requires ValidDate(d) && j <= k
    ensures DateLe(MinusDays(d, k), MinusDays(d, j))
    ensures j < k ==> DateLt(MinusDays(d, k), MinusDays(d, j))
    decreases k
  {
    if j == 0 {
      if k > 0 {
        NextPrevInverse(d);
        StepOrder(d);
        MinusDaysMonotone(PrevDay(d), 0, k - 1);
        DateLtTrans(MinusDays(d, k), PrevDay(d), d);
      }
    } else {
      NextPrevInverse(d);
      MinusDaysMonotone(PrevDay(d), j - 1, k - 1);
    }
  }

  /** Going forward more days lands strictly later. */
  lemma {:induction false} PlusDaysMonotone(d: Date, j: nat, k: nat)
    requires ValidDate(d) && j < k
    ensures DateLt(PlusDays(d, j), PlusDays(d, k))
    decreases k
  {
    NextPrevInverse(d);
    StepOrder(d);
    if j == 0 {
      if k > 1 {
        PlusDaysMonotone(NextDay(d), 0, k - 1);
        DateLtTrans(d, NextDay(d), PlusDays(NextDay(d), k - 1));
      }
    } else {
      PlusDaysMonotone(NextDay(d), j - 1, k - 1);
    }
  }

  /** Going back `k` days and forward `k` days returns to the start. */
  lemma {:induction false} PlusMinusInverse(d: Date, k: nat)
    requires ValidDate(d)
    ensures PlusDays(MinusDays(d, k), k) == d
    decreases k
  {
    if k > 0 {
      NextPrevInverse(d);
      PlusMinusInverse(PrevDay(d), k - 1);
      PlusDaysLast(MinusDays(PrevDay(d), k - 1), k - 1);
    }
  }

  /** The last step of `PlusDays` can be taken at the end instead of the start. */
  lemma {:induction false} PlusDaysLast(d: Date, k: nat)
    requires ValidDate(d)
    ensures PlusDays(d, k + 1) == NextDay(PlusDays(d, k))
    decreases k
  {
    NextPrevInverse(d);
    if k > 0 {
      PlusDaysLast(NextDay(d), k - 1);
    }
  }

  lemma InstantLeTrans(a: Instant, b: Instant, c: Instant)
    requires InstantLe(a, b) && InstantLe(b, c)
    ensures InstantLe(a, c)
  {
    if DateLt(a.date, b.date) || DateLt(b.date, c.date) {
      DateLeTrans(a.date, b.date, c.date);
    }
  }

  /** A date strictly before `b` is no later than the day before `b`. */
  lemma BeforeMeansByPrevDay(a: Date, b: Date)
    requires ValidDate(a) && ValidDate(b) && DateLt(a, b)
    ensures DateLe(a, PrevDay(b))
  {
  }

  /** The first day of the month `offset` months before `d`'s month (`setDate(1)` then `setMonth(getMonth() - offset)`). */
  function MonthStart(d: Date, offset: nat): (r: Date)
    ensures ValidDate(r) && r.day == 1
  {
    var total := d.year * 12 + d.month - offset;
    Date(total / 12, total % 12, 1)
  }

  /** The first day of the previous month is strictly before the first day of this one. */
  lemma MonthStartOrder(d: Date)
    requires ValidDate(d)
    ensures MonthStart(d, 0) == Date(d.year, d.month, 1)
    ensures DateLt(MonthStart(d, 1), MonthStart(d, 0))
  {
    var total := d.year * 12 + d.month;
    assert total / 12 == d.year && total % 12 == d.month;
    if d.month > 0 {
      assert (total - 1) / 12 == d.year && (total - 1) % 12 == d.month - 1;
    } else {
      assert (total - 1) / 12 == d.year - 1 && (total - 1) % 12 == 11;
    }
  }

  /** The weekday `k` days before a date whose weekday is `w` (0 = Sunday, as `getDay` counts). */
  function WeekdayBefore(w: int, k: int): (r: int)
    ensures 0 <= r < 7
  {
    (w - k) % 7
  }
}
