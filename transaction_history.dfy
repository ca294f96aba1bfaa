/**
 * The transaction history page (app/transactionhistory/page.tsx): the date
 * filter `withinDateRange`, the search and payment filters, and the list they
 * select from the fixed sample transactions.
 *
 * Dates are local instants (`Calendar.Instant`); parsing the ISO strings is
 * not modelled. The clock reading `new Date()` is the parameter `now`, and
 * `now.getDay()` the parameter `weekday` (0 = Sunday).
 */
module TransactionHistory {
  import Text
  import Seqs
  import Calendar

  datatype Payment = Cash | Gcash

  datatype Transaction = Transaction(id: string, date: Calendar.Instant, items: int, amount: string, payment: Payment)

  function PaymentLabel(p: Payment): string {
    match p
    case Cash => "Cash"
    case Gcash => "Gcash"
  }

  function At(y: int, m: int, d: int, hour: int, minute: int): Calendar.Instant {
    Calendar.Instant(Calendar.Date(y, m, d), (hour * 60 + minute) * 60000)
  }

  /** `transactions`: the six sample rows, months counted from 0 as `getMonth` does. */
  function SampleTransactions(): (ts: seq<Transaction>)
    ensures |ts| == 6
    ensures forall i :: 0 <= i < |ts| ==> Calendar.ValidInstant(ts[i].date)
  {
    [ Transaction("TRX-1001", At(2024, 11, 17, 9, 15), 5, "₱125.50", Cash),
      Transaction("TRX-1002", At(2024, 11, 17, 11, 10), 3, "₱67.25", Gcash),
      Transaction("TRX-1003", At(2024, 11, 15, 16, 35), 8, "₱234.00", Cash),
      Transaction("TRX-1004", At(2024, 11, 12, 14, 20), 2, "₱45.50", Gcash),
      Transaction("TRX-1005", At(2024, 10, 28, 10, 5), 12, "₱567.75", Cash),
      Transaction("TRX-1006", At(2024, 6, 8, 18, 42), 6, "₱189.00", Gcash) ]
  }

  // ---------------------------------------------------------------------------
  // withinDateRange

  /** `diffToMonday`: the day offset from `weekday` back to this week's Monday. */
  function DiffToMonday(weekday: int): int
    requires 0 <= weekday < 7
  {
    (if weekday == 0 then -6 else 1) - weekday
  }

  /** The Monday 00:00 starting the week of `now`. */
  function WeekStart(now: Calendar.Instant, weekday: int): Calendar.Instant
    requires Calendar.ValidInstant(now) && 0 <= weekday < 7
  {
    Calendar.Midnight(Calendar.MinusDays(now.date, -DiffToMonday(weekday)))
  }

  /** Seven days after `WeekStart`, the first instant no longer in the week. */
  function WeekEnd(now: Calendar.Instant, weekday: int): Calendar.Instant
    requires Calendar.ValidInstant(now) && 0 <= weekday < 7
  {
    Calendar.Midnight(Calendar.PlusDays(WeekStart(now, weekday).date, 7))
  }

  /** `withinDateRange(date, filter)` read at the instant `now`. */
  predicate WithinDateRange(date: Calendar.Instant, filter: string, now: Calendar.Instant, weekday: int)
    requires Calendar.ValidInstant(now) && 0 <= weekday < 7
  {
    if filter == "all" then true
    else if filter == "today" then
      date.date.year == now.date.year && date.date.month == now.date.month && date.date.day == now.date.day
    else if filter == "week" then
      Calendar.InstantLe(WeekStart(now, weekday), date) && Calendar.InstantLt(date, WeekEnd(now, weekday))
    else if filter == "month" then
      date.date.year == now.date.year && date.date.month == now.date.month
    else if filter == "year" then
      date.date.year == now.date.year
    else true
  }

  /**
   * The offset to Monday lies between -6 and 0 and lands on a Monday
   * (weekday 1) from every weekday.
   */
  lemma DiffToMondayBounds(weekday: int)
    requires 0 <= weekday < 7
    ensures -6 <= DiffToMonday(weekday) <= 0
    ensures (weekday + DiffToMonday(weekday)) % 7 == 1
    ensures Calendar.WeekdayBefore(weekday, -DiffToMonday(weekday)) == 1
  {
  }

  /**
   * "today", "month" and "year" compare calendar fields with `now`; "all"
   * and any unknown filter let every date through.
   */
  lemma DateFilterMeaning(date: Calendar.Instant, filter: string, now: Calendar.Instant, weekday: int)
    requires Calendar.ValidInstant(now) && 0 <= weekday < 7
    ensures filter == "today" ==> (WithinDateRange(date, filter, now, weekday) <==> date.date == now.date)
    ensures filter == "month" && Calendar.ValidDate(date.date) ==>
      (WithinDateRange(date, filter, now, weekday) <==> Calendar.MonthStart(date.date, 0) == Calendar.MonthStart(now.date, 0))
    ensures filter == "year" ==> (WithinDateRange(date, filter, now, weekday) <==> date.date.year == now.date.year)
    ensures filter !in ["today", "week", "month", "year"] ==> WithinDateRange(date, filter, now, weekday)
  {
    var a, b := date.date, now.date;
    if filter == "month" && Calendar.ValidDate(a) {
      Calendar.MonthStartOrder(a);
      Calendar.MonthStartOrder(b);
    }
  }

  /**
   * The week is the half-open window [Monday 00:00, next Monday 00:00): a
   * valid instant is in it exactly when its date is on or after that Monday
   * and before the Monday seven days later.
   */
  lemma WeekWindow(date: Calendar.Instant, now: Calendar.Instant, weekday: int)
    requires Calendar.ValidInstant(now) && Calendar.ValidInstant(date) && 0 <= weekday < 7
    ensures var monday := WeekStart(now, weekday).date;
      (WithinDateRange(date, "week", now, weekday) <==>
        Calendar.DateLe(monday, date.date) && Calendar.DateLt(date.date, Calendar.PlusDays(monday, 7)))
    ensures WithinDateRange(WeekStart(now, weekday), "week", now, weekday)
    ensures !WithinDateRange(WeekEnd(now, weekday), "week", now, weekday)
  {
    var monday := WeekStart(now, weekday).date;
    Calendar.PlusDaysMonotone(monday, 0, 7);
  }

  /** The week window holds `now` itself. */
  lemma WeekHoldsNow(now: Calendar.Instant, weekday: int)
    requires Calendar.ValidInstant(now) && 0 <= weekday < 7
    ensures WithinDateRange(now, "week", now, weekday)
  {
    var k := -DiffToMonday(weekday);
    var monday := Calendar.MinusDays(now.date, k);
    Calendar.MinusDaysMonotone(now.date, 0, k);
    Calendar.PlusMinusInverse(now.date, k);
    Calendar.PlusDaysMonotone(monday, k, 7);
  }

  // ---------------------------------------------------------------------------
  // The filtered list

  /** `search.trim().toLowerCase()`. */
  function Query(search: string): string {
    Text.Lower(Text.Trim(search))
  }

  predicate MatchesSearch(t: Transaction, search: string) {
    var q := Query(search);
    |q| == 0 || Text.Contains(Text.Lower(t.id), q) || Text.Contains(Text.Lower(PaymentLabel(t.payment)), q)
  }

  predicate MatchesPayment(t: Transaction, paymentFilter: string) {
    paymentFilter == "all" || Text.Lower(PaymentLabel(t.payment)) == paymentFilter
  }

  /** The callback handed to `transactions.filter`. */
  predicate Keep(t: Transaction, search: string, paymentFilter: string, dateFilter: string,
                 now: Calendar.Instant, weekday: int)
    requires Calendar.ValidInstant(now) && 0 <= weekday < 7
  {
    MatchesSearch(t, search) && MatchesPayment(t, paymentFilter) && WithinDateRange(t.date, dateFilter, now, weekday)
  }

  /** `filteredTransactions`. */
  function FilteredTransactions(ts: seq<Transaction>, search: string, paymentFilter: string, dateFilter: string,
                                now: Calendar.Instant, weekday: int): seq<Transaction>
    requires Calendar.ValidInstant(now) && 0 <= weekday < 7
  {
    Seqs.Filter(ts, t => Keep(t, search, paymentFilter, dateFilter, now, weekday))
  }

  /**
   * A search that is blank once trimmed matches every transaction; any other
   * is a case-insensitive substring test on the id or the payment label.
   */
  lemma SearchMatching(t: Transaction, search: string)
    ensures Text.AllSpace(search) ==> MatchesSearch(t, search)
    ensures !Text.AllSpace(search) ==>
      (MatchesSearch(t, search) <==>
        (exists k :: Text.OccursAt(Text.Lower(t.id), Query(search), k))
        || (exists k :: Text.OccursAt(Text.Lower(PaymentLabel(t.payment)), Query(search), k)))
  {
    Text.TrimBlank(search);
    Text.ContainsAt(Text.Lower(t.id), Query(search));
    Text.ContainsAt(Text.Lower(PaymentLabel(t.payment)), Query(search));
  }

  /** "all" accepts every payment, "cash" and "gcash" exactly their own, any other value none. */
  lemma PaymentMatching(t: Transaction, paymentFilter: string)
    ensures paymentFilter == "all" ==> MatchesPayment(t, paymentFilter)
    ensures paymentFilter == "cash" ==> (MatchesPayment(t, paymentFilter) <==> t.payment == Cash)
    ensures paymentFilter == "gcash" ==> (MatchesPayment(t, paymentFilter) <==> t.payment == Gcash)
    ensures paymentFilter !in ["all", "cash", "gcash"] ==> !MatchesPayment(t, paymentFilter)
  {
    assert Text.Lower("Cash") == "cash";
    assert Text.Lower("Gcash") == "gcash";
  }

  /**
   * The list keeps the input order, and a transaction of the input is in it
   * exactly when it passes the search, payment and date filters.
   */
  lemma FilteredContents(ts: seq<Transaction>, search: string, paymentFilter: string, dateFilter: string,
                         now: Calendar.Instant, weekday: int)
    requires Calendar.ValidInstant(now) && 0 <= weekday < 7
    ensures Seqs.IsSubseq(FilteredTransactions(ts, search, paymentFilter, dateFilter, now, weekday), ts)
    ensures forall i :: 0 <= i < |ts| ==>
      ((ts[i] in FilteredTransactions(ts, search, paymentFilter, dateFilter, now, weekday))
        <==> (MatchesSearch(ts[i], search) && MatchesPayment(ts[i], paymentFilter)
              && WithinDateRange(ts[i].date, dateFilter, now, weekday)))
  {
    Seqs.FilterIsSubseq(ts, t => Keep(t, search, paymentFilter, dateFilter, now, weekday));
  }

  /** With a blank search and both filters on "all", every transaction is listed. */
  lemma FilteredAllShown(ts: seq<Transaction>, search: string, now: Calendar.Instant, weekday: int)
    requires Calendar.ValidInstant(now) && 0 <= weekday < 7
    requires Text.AllSpace(search)
    ensures FilteredTransactions(ts, search, "all", "all", now, weekday) == ts
  {
    forall t | t in ts ensures Keep(t, search, "all", "all", now, weekday) {
      SearchMatching(t, search);
    }
    Seqs.FilterAll(ts, t => Keep(t, search, "all", "all", now, weekday));
  }
}
