/**
 * Calendar arithmetic shared by the dashboard and the rental calendar. A
 * calendar date is a day number counted from 1970-01-01 (a Thursday), months
 * are numbered 1..12 (JavaScript's `getMonth()` is this number minus one), and
 * time zones are not modelled: a `YYYY-MM-DD` string and `new Date(y, m, d)`
 * denote the same day.
 */
module Dates {

  /** Days since 1970-01-01. */
  type Day = int

  const MillisPerDay: int := 86_400_000

  predicate IsLeapYear(y: int) {
    y % 4 == 0 && (y % 100 != 0 || y % 400 == 0)
  }

  predicate IsMonth(m: int) {
    1 <= m <= 12
  }

  /** Gregorian month length: what `new Date(y, m + 1, 0).getDate()` returns. */
  function DaysInMonth(y: int, m: int): (n: int)
    requires IsMonth(m)
    ensures 28 <= n <= 31
    ensures m == 2 ==> n == (if IsLeapYear(y) then 29 else 28)
    ensures m in {4, 6, 9, 11} ==> n == 30
    ensures m in {1, 3, 5, 7, 8, 10, 12} ==> n == 31
  {
    if m == 2 then (if IsLeapYear(y) then 29 else 28)
    else if m == 4 || m == 6 || m == 9 || m == 11 then 30
    else 31
  }

  /** Days of year `y` before the first of month `m`. */
  function DaysBeforeMonth(y: int, m: int): (n: int)
    requires IsMonth(m)
  {
    var common := [0, 31, 59, 90, 120, 151, 181, 212, 243, 273, 304, 334][m - 1];
    if m > 2 && IsLeapYear(y) then common + 1 else common
  }

  function YearLength(y: int): int {
    if IsLeapYear(y) then 366 else 365
  }

  /** Leap years among 1..y (counted with Euclidean division, so the formula extends to all years). */
  function LeapsThrough(y: int): int {
    y / 4 - y / 100 + y / 400
  }

  /** The day number of January 1st of year `y`. */
  function YearStart(y: int): Day {
    365 * (y - 1970) + LeapsThrough(y - 1) - LeapsThrough(1969)
  }

  /** The day number of `new Date(y, m - 1, d)`; a day past the month's end runs on into the next month. */
  function FromCivil(y: int, m: int, d: int): Day
    requires IsMonth(m)
  {
    YearStart(y) + DaysBeforeMonth(y, m) + d - 1
  }

  lemma DivStep(x: int, k: int)
    requires k == 4 || k == 100 || k == 400
    ensures x / k - (x - 1) / k == if x % k == 0 then 1 else 0
  {
    var q, r := (x - 1) / k, (x - 1) % k;
    assert x - 1 == q * k + r && 0 <= r < k;
    if r == k - 1 {
      assert x == (q + 1) * k;
    } else {
      assert x == q * k + (r + 1) && 0 <= r + 1 < k;
    }
  }

  /** Consecutive Januaries are a year length apart. */
  lemma YearStartStep(y: int)
    ensures YearStart(y + 1) == YearStart(y) + YearLength(y)
  {
    DivStep(y, 4);
    DivStep(y, 100);
    DivStep(y, 400);
  }

  /** The year and month after `(y, m)`. */
  function NextMonth(y: int, m: int): (r: (int, int))
    requires IsMonth(m)
    ensures IsMonth(r.1) && MonthIndex(r.0, r.1) == MonthIndex(y, m) + 1
  {
    if m == 12 then (y + 1, 1) else (y, m + 1)
  }

  /** The year and month before `(y, m)`. */
  function PrevMonth(y: int, m: int): (r: (int, int))
    requires IsMonth(m)
    ensures IsMonth(r.1) && MonthIndex(r.0, r.1) == MonthIndex(y, m) - 1
  {
    if m == 1 then (y - 1, 12) else (y, m - 1)
  }

  /** Month `m` ends where the next month (of the same or the next year) starts. */
  lemma MonthEndMeetsNextStart(y: int, m: int)
    requires IsMonth(m)
    ensures FromCivil(y, m, DaysInMonth(y, m)) + 1 == FromCivil(NextMonth(y, m).0, NextMonth(y, m).1, 1)
  {
    YearStartStep(y);
  }

  /** `getDay()`: 0 for Sunday up to 6 for Saturday. */
  function Weekday(d: Day): (w: int)
    ensures 0 <= w < 7
  {
    (d + 4) % 7
  }

  lemma WeekdaySucc(d: Day)
    ensures Weekday(d + 1) == (Weekday(d) + 1) % 7
    ensures Weekday(d + 7) == Weekday(d)
  {
  }

  // ---------------------------------------------------------------------------
  // Month arithmetic, as `new Date(y, m + k, 1)` normalises an out-of-range month

  /** Months since January of year 0. */
  function MonthIndex(y: int, m: int): int {
    y * 12 + m - 1
  }

  function YearOfIndex(k: int): int {
    k / 12
  }

  function MonthOfIndex(k: int): (m: int)
    ensures IsMonth(m)
  {
    k % 12 + 1
  }

  lemma MonthIndexRoundTrip(k: int, y: int, m: int)
    ensures MonthIndex(YearOfIndex(k), MonthOfIndex(k)) == k
    ensures IsMonth(m) ==> YearOfIndex(MonthIndex(y, m)) == y && MonthOfIndex(MonthIndex(y, m)) == m
  {
  }

  // ---------------------------------------------------------------------------
  // Instants

  /** A point in time: a day and the milliseconds elapsed since its midnight. */
  datatype Instant = Instant(day: Day, ms: int)

  predicate ValidInstant(t: Instant) {
    0 <= t.ms < MillisPerDay
  }

  /** `a < b` on `Date` objects. */
  predicate Before(a: Instant, b: Instant) {
    a.day < b.day || (a.day == b.day && a.ms < b.ms)
  }

  /** `new Date('YYYY-MM-DD')`: midnight at the start of the day. */
  function StartOf(d: Day): (t: Instant)
    ensures ValidInstant(t)
  {
    Instant(d, 0)
  }

  /** A date lies before an instant exactly when it is an earlier day, or the same day once midnight has passed. */
  lemma StartBeforeIff(d: Day, now: Instant)
    requires ValidInstant(now)
    ensures Before(StartOf(d), now) <==> d < now.day || (d == now.day && now.ms > 0)
  {
  }
}
