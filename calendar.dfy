/**
 * A plain civil calendar standing in for JavaScript's local-time `Date`.
 * An instant is a (year, month 1..12, day, millisecond of the day) value; two
 * instants compare like their timestamps, that is lexicographically.
 */
module Calendar {

  const MsPerDay: int := 86400000

  datatype Instant = Instant(year: int, month: int, day: int, ms: int)

  /** Gregorian leap-year rule, applied proleptically as `Date` does. */
  predicate IsLeapYear(y: int) {
    (y % 4 == 0 && y % 100 != 0) || y % 400 == 0
  }

  function DaysInMonth(y: int, m: int): (d: int)
    requires 1 <= m <= 12
    ensures 28 <= d <= 31
  {
    if m == 2 then (if IsLeapYear(y) then 29 else 28)
    else if m == 4 || m == 6 || m == 9 || m == 11 then 30
    else 31
  }

  /** February has 29 days in a leap year and 28 otherwise; April, June, September and November have 30; the rest 31. */
  lemma DaysInMonthRule(y: int, m: int)
    requires 1 <= m <= 12
    ensures m == 2 ==> (DaysInMonth(y, m) == 29 <==> IsLeapYear(y)) && (DaysInMonth(y, m) == 28 <==> !IsLeapYear(y))
    ensures m in {4, 6, 9, 11} <==> DaysInMonth(y, m) == 30
    ensures m in {1, 3, 5, 7, 8, 10, 12} <==> DaysInMonth(y, m) == 31
  {
  }

  /** An instant that names a real moment of the calendar. */
  predicate ValidInstant(t: Instant) {
    1 <= t.month <= 12 && 1 <= t.day <= DaysInMonth(t.year, t.month) && 0 <= t.ms < MsPerDay
  }

  /** `a < b` on the instants' timestamps. */
  predicate Before(a: Instant, b: Instant) {
    a.year < b.year
    || (a.year == b.year && a.month < b.month)
    || (a.year == b.year && a.month == b.month && a.day < b.day)
    || (a.year == b.year && a.month == b.month && a.day == b.day && a.ms < b.ms)
  }

  /** `a <= b` on the instants' timestamps. */
  predicate AtOrBefore(a: Instant, b: Instant) {
    !Before(b, a)
  }

  /** The `Date` constructor reads a year argument from 0 to 99 as 1900 to 1999. */
  function ConstructorYear(y: int): int {
    if 0 <= y <= 99 then 1900 + y else y
  }

  /**
   * `new Date(year, monthIndex, 1)`: monthIndex is 0-based and may lie outside
   * 0..11, in which case whole years are carried (floor division, which is what
   * Dafny's `/` and `%` do for the positive divisor 12).
   */
  function StartOfMonth(year: int, monthIndex: int): Instant {
    Instant(ConstructorYear(year) + monthIndex / 12, monthIndex % 12 + 1, 1, 0)
  }

  /** `new Date(year, monthIndex, 0)`: day 0 of a month is the last day of the month before it. */
  function DayZero(year: int, monthIndex: int): Instant {
    var y := ConstructorYear(year) + monthIndex / 12;
    var m := monthIndex % 12;
    if m == 0 then Instant(y - 1, 12, 31, 0) else Instant(y, m, DaysInMonth(y, m), 0)
  }

  /** Midnight of the calendar day after a valid instant. */
  function NextDay(t: Instant): (u: Instant)
    requires ValidInstant(t)
    ensures ValidInstant(u) && u.ms == 0 && Before(t, u)
  {
    if t.day < DaysInMonth(t.year, t.month) then Instant(t.year, t.month, t.day + 1, 0)
    else if t.month < 12 then Instant(t.year, t.month + 1, 1, 0)
    else Instant(t.year + 1, 1, 1, 0)
  }

  /** The calendar month after (y, m), carrying into the next year after December. */
  function NextMonth(ym: (int, int)): (int, int) {
    if ym.1 == 12 then (ym.0 + 1, 1) else (ym.0, ym.1 + 1)
  }

  /** The month that `new Date(year, monthIndex, 1)` falls in, as (year, 1-based month). */
  function NormalizedMonth(year: int, monthIndex: int): (int, int) {
    (ConstructorYear(year) + monthIndex / 12, monthIndex % 12 + 1)
  }

  /** Stepping the month index by one steps the normalized month by one calendar month. */
  lemma NormalizedMonthStep(year: int, monthIndex: int)
    ensures NormalizedMonth(year, monthIndex + 1) == NextMonth(NormalizedMonth(year, monthIndex))
  {
    var q, r := monthIndex / 12, monthIndex % 12;
    assert monthIndex == 12 * q + r && 0 <= r < 12;
    if r == 11 {
      assert monthIndex + 1 == 12 * (q + 1) + 0;
    } else {
      assert monthIndex + 1 == 12 * q + (r + 1);
    }
  }

  /** The day-0 trick is right: the day after day 0 of a month is the first day of that month. */
  lemma DayZeroPrecedesStart(year: int, monthIndex: int)
    ensures NextDay(DayZero(year, monthIndex)) == StartOfMonth(year, monthIndex)
  {
  }

  /**
   * `new Date(year, month - 1, 1)` and `new Date(year, month, 0)` lie in the same
   * calendar month: its first day and its last day, at 00:00.
   */
  lemma MonthBounds(year: int, month: int)
    ensures var s, e := StartOfMonth(year, month - 1), DayZero(year, month);
      ValidInstant(s) && ValidInstant(e)
      && (s.year, s.month) == (e.year, e.month) == NormalizedMonth(year, month - 1)
      && s.day == 1 && s.ms == 0 && e.day == DaysInMonth(e.year, e.month) && e.ms == 0
  {
    NormalizedMonthStep(year, month - 1);
  }

  /**
   * A valid instant lies between `new Date(year, month - 1, 1)` and
   * `new Date(year, month, 0)` (both inclusive) exactly when it falls in that
   * month on a day before the last, or at 00:00:00.000 of the last day.
   */
  lemma MonthWindowMembership(year: int, month: int, t: Instant)
    requires ValidInstant(t)
    ensures var ym := NormalizedMonth(year, month - 1);
      AtOrBefore(StartOfMonth(year, month - 1), t) && AtOrBefore(t, DayZero(year, month))
      <==> (t.year, t.month) == ym
           && (t.day < DaysInMonth(ym.0, ym.1) || (t.day == DaysInMonth(ym.0, ym.1) && t.ms == 0))
  {
    MonthBounds(year, month);
  }

  const MonthAbbreviations: seq<string> :=
    ["Jan", "Feb", "Mar", "Apr", "May", "Jun", "Jul", "Aug", "Sep", "Oct", "Nov", "Dec"]

  /** `toLocaleDateString('en-US', { month: 'short' })` of a date in month m (1-based). */
  function MonthLabel(m: int): (s: string)
    requires 1 <= m <= 12
    ensures |s| == 3
    ensures s in MonthAbbreviations
  {
    MonthAbbreviations[m - 1]
  }

  /** Different months get different labels, so a label names its month. */
  lemma MonthLabelsDistinct(m1: int, m2: int)
    requires 1 <= m1 <= 12 && 1 <= m2 <= 12
    ensures MonthLabel(m1) == MonthLabel(m2) ==> m1 == m2
  {
  }
}
