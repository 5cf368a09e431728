/** Calendar days at day granularity, in the form JavaScript's `new Date(year, month, day)` takes them. */
module Dates {
  import opened Text

  /** A day: full year, ZERO-based month (0 = January, 3 = April, 11 = December), day of month. */
  datatype Date = Date(year: int, month: int, day: int)

  predicate IsLeapYear(y: int) {
    y % 4 == 0 && (y % 100 != 0 || y % 400 == 0)
  }

  function DaysInMonth(y: int, m: int): int
    requires 0 <= m < 12
  {
    if m == 1 then (if IsLeapYear(y) then 29 else 28)
    else if m == 3 || m == 5 || m == 8 || m == 10 then 30
    else 31
  }

  /** A day that exists in the proleptic Gregorian calendar. */
  predicate Valid(d: Date) {
    0 <= d.month < 12 && 1 <= d.day <= DaysInMonth(d.year, d.month)
  }

  /** `a <= b` on days: lexicographic on (year, month, day). */
  predicate OnOrBefore(a: Date, b: Date) {
    a.year < b.year
    || (a.year == b.year && (a.month < b.month || (a.month == b.month && a.day <= b.day)))
  }

  /** `a < b` on days. */
  predicate Before(a: Date, b: Date) {
    OnOrBefore(a, b) && a != b
  }

  /** The inclusive window test `start <= d && d <= end`. */
  predicate Within(d: Date, start: Date, end: Date) {
    OnOrBefore(start, d) && OnOrBefore(d, end)
  }

  /** Number of leap years strictly before year `y` (counted from year 1, extended to all integers). */
  function LeapYearsBefore(y: int): int {
    (y - 1) / 4 - (y - 1) / 100 + (y - 1) / 400
  }

  /** Days in the months of year `y` before month `m`. */
  function DaysBeforeMonth(y: int, m: int): int
    requires 0 <= m < 12
  {
    [0, 31, 59, 90, 120, 151, 181, 212, 243, 273, 304, 334][m] + (if m >= 2 && IsLeapYear(y) then 1 else 0)
  }

  /** Serial day number: consecutive days get consecutive numbers (the offset of the epoch is irrelevant,
      only differences are used). */
  function DayNumber(d: Date): int
    requires 0 <= d.month < 12
  {
    365 * d.year + LeapYearsBefore(d.year) + DaysBeforeMonth(d.year, d.month) + d.day
  }

  /** The first day of the next year follows the last day of this one. */
  lemma NewYear(y: int)
    ensures DayNumber(Date(y + 1, 0, 1)) == DayNumber(Date(y, 11, 31)) + 1
  {
    assert LeapYearsBefore(y + 1) - LeapYearsBefore(y) == if IsLeapYear(y) then 1 else 0 by {
      LeapStep(y);
    }
  }

  /** Year `y` adds one to the leap-year count exactly when it is a leap year. */
  lemma LeapStep(y: int)
    ensures LeapYearsBefore(y + 1) - LeapYearsBefore(y) == if IsLeapYear(y) then 1 else 0
  {
    DivStep(y, 4);
    DivStep(y, 100);
    DivStep(y, 400);
    if y % 100 == 0 { DivUnique(y, 4, 25 * (y / 100), 0); }
    if y % 400 == 0 { DivUnique(y, 100, 4 * (y / 400), 0); }
  }

  /** Stepping from `y - 1` to `y` passes a multiple of `d` exactly when `y` is one. */
  lemma DivStep(y: int, d: int)
    requires d > 0
    ensures y / d - (y - 1) / d == if y % d == 0 then 1 else 0
  {
    var q, r := y / d, y % d;
    if r == 0 {
      DivUnique(y - 1, d, q - 1, d - 1);
    } else {
      DivUnique(y - 1, d, q, r - 1);
    }
  }

  /** Day numbers of year starts never decrease. */
  lemma {:induction false} YearStartMonotone(a: int, b: int)
    requires a <= b
    ensures DayNumber(Date(a, 0, 1)) <= DayNumber(Date(b, 0, 1))
    decreases b - a
  {
    if a < b {
      YearStartMonotone(a, b - 1);
      NewYear(b - 1);
    }
  }

  /** On valid days, the calendar order is the order of day numbers. */
  lemma {:induction false} DayNumberOrder(a: Date, b: Date)
    requires Valid(a) && Valid(b)
    ensures OnOrBefore(a, b) <==> DayNumber(a) <= DayNumber(b)
    ensures a == b <==> DayNumber(a) == DayNumber(b)
  {
    if Before(a, b) {
      DayNumberStrict(a, b);
    } else if Before(b, a) {
      DayNumberStrict(b, a);
    }
  }

  lemma DayNumberStrict(a: Date, b: Date)
    requires Valid(a) && Valid(b) && Before(a, b)
    ensures DayNumber(a) < DayNumber(b)
  {
    if a.year < b.year {
      YearsApart(a, b);
    } else if a.month < b.month {
      MonthsMonotone(a.year, a.month, b.month);
    }
  }

  /** A day of an earlier year comes before any day of a later year. */
  lemma YearsApart(a: Date, b: Date)
    requires Valid(a) && Valid(b) && a.year < b.year
    ensures DayNumber(a) < DayNumber(b)
  {
    var last, start := Date(a.year, 11, 31), Date(b.year, 0, 1);
    if a.month < 11 { MonthsMonotone(a.year, a.month, 11); }
    assert DayNumber(a) <= DayNumber(last);
    NewYear(a.year);
    YearStartMonotone(a.year + 1, b.year);
    assert DayNumber(last) < DayNumber(start);
    assert DaysBeforeMonth(b.year, b.month) >= 0;
  }

  /** A month ends before any later month of the same year starts. */
  lemma {:induction false} MonthsMonotone(y: int, m: int, n: int)
    requires 0 <= m < n < 12
    ensures DaysBeforeMonth(y, m) + DaysInMonth(y, m) <= DaysBeforeMonth(y, n)
    decreases n - m
  {
    if m + 1 < n {
      MonthsMonotone(y, m + 1, n);
    }
  }

  /** `'0'`-padding to two digits, as in an ISO date. */
  function Pad2(n: int): (s: string)
    ensures 0 <= n < 100 ==> |s| == 2 && AllDigits(s)
  {
    if 0 <= n < 10 then "0" + NatToString(n)
    else
      assert 10 <= n < 100 ==> |NatToString(n / 10)| == 1;
      IntToString(n)
  }

  /** The stored `YYYY-MM-DD` text of a date (months are 0-based in the record). */
  function DateText(d: Date): string {
    IntToString(d.year) + "-" + Pad2(d.month + 1) + "-" + Pad2(d.day)
  }
}
