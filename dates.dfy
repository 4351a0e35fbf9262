/**
 * Calendar dates as Python's `datetime.date` represents them: a proleptic
 * Gregorian (year, month, day) in years 1..9999, with the day ordinal of
 * `date.toordinal()` (0001-01-01 is day 1).  The accounts code only compares
 * dates and adds whole days to them; adding `timedelta(days=n)` moves the
 * ordinal by `n`, so a bound such as `today + timedelta(days=7)` is the
 * ordinal `Ordinal(today) + 7`.
 */
module Dates {

  datatype CalendarDate = CalendarDate(year: int, month: int, day: int)

  const MIN_YEAR := 1
  const MAX_YEAR := 9999

  predicate IsLeapYear(y: int) {
    y % 4 == 0 && (y % 100 != 0 || y % 400 == 0)
  }

  function DaysInYear(y: int): int {
    if IsLeapYear(y) then 366 else 365
  }

  /** Month lengths in a common year, January first (Python's `_DAYS_IN_MONTH`). */
  const DAYS_IN_MONTH: seq<int> := [31, 28, 31, 30, 31, 30, 31, 31, 30, 31, 30, 31]

  /** Days in the months before each month of a common year (Python's `_DAYS_BEFORE_MONTH`). */
  const DAYS_BEFORE_MONTH: seq<int> := [0, 31, 59, 90, 120, 151, 181, 212, 243, 273, 304, 334]

  function DaysInMonth(y: int, m: int): int
    requires 1 <= m <= 12
  {
    if m == 2 && IsLeapYear(y) then 29 else DAYS_IN_MONTH[m - 1]
  }

  predicate ValidDate(c: CalendarDate) {
    MIN_YEAR <= c.year <= MAX_YEAR && 1 <= c.month <= 12 && 1 <= c.day <= DaysInMonth(c.year, c.month)
  }

  /** A value of Python's `date` type: always a real calendar day. */
  type Date = c: CalendarDate | ValidDate(c) witness CalendarDate(1, 1, 1)

  /** Days in the years before `y` (Python's `_days_before_year`). */
  function DaysBeforeYear(y: int): int
    requires y >= 1
  {
    var p := y - 1;
    p * 365 + p / 4 - p / 100 + p / 400
  }

  /** Days in the months of year `y` before month `m` (Python's `_days_before_month`). */
  function DaysBeforeMonth(y: int, m: int): int
    requires 1 <= m <= 12
  {
    DAYS_BEFORE_MONTH[m - 1] + (if m > 2 && IsLeapYear(y) then 1 else 0)
  }

  /** `date.toordinal()`. */
  function Ordinal(d: Date): int {
    DaysBeforeYear(d.year) + DaysBeforeMonth(d.year, d.month) + d.day
  }

  /**
   * Python's `date.__lt__`: dates compare as (year, month, day) tuples.
   */
  predicate Before(a: Date, b: Date) {
    a.year < b.year || (a.year == b.year && (a.month < b.month || (a.month == b.month && a.day < b.day)))
  }

  /** The number of days from `from` to `to`, i.e. `(to - from).days`. */
  function DaysBetween(from: Date, to: Date): (r: int)
    ensures r < 0 <==> Before(to, from)
    ensures r == 0 <==> to == from
  {
    OrdinalOrder(to, from);
    OrdinalOrder(from, to);
    Ordinal(to) - Ordinal(from)
  }

  lemma NextYear(y: int)
    requires y >= 1
    ensures DaysBeforeYear(y + 1) == DaysBeforeYear(y) + DaysInYear(y)
  {
    var p := y - 1;
    assert (p + 1) / 4 == p / 4 + (if y % 4 == 0 then 1 else 0);
    assert (p + 1) / 100 == p / 100 + (if y % 100 == 0 then 1 else 0);
    assert (p + 1) / 400 == p / 400 + (if y % 400 == 0 then 1 else 0);
  }

  lemma {:induction false} DaysBeforeYearMonotone(x: int, y: int)
    requires 1 <= x <= y
    ensures DaysBeforeYear(x) <= DaysBeforeYear(y)
  {
    if x < y {
      DaysBeforeYearMonotone(x, y - 1);
      NextYear(y - 1);
    }
  }

  /** A day's ordinal lies within its own year. */
  lemma WithinYear(d: Date)
    ensures DaysBeforeYear(d.year) < Ordinal(d) <= DaysBeforeYear(d.year) + DaysInYear(d.year)
  {
  }

  /** Every day of month `m1` comes before the first day of a later month `m2`. */
  lemma MonthsInOrder(y: int, m1: int, m2: int)
    requires 1 <= m1 < m2 <= 12
    ensures DaysBeforeMonth(y, m1) + DaysInMonth(y, m1) <= DaysBeforeMonth(y, m2)
  {
  }

  /** A day of an earlier year has a smaller ordinal than any day of a later year. */
  lemma EarlierYear(a: Date, b: Date)
    requires a.year < b.year
    ensures Ordinal(a) < Ordinal(b)
  {
    WithinYear(a);
    WithinYear(b);
    NextYear(a.year);
    DaysBeforeYearMonotone(a.year + 1, b.year);
  }

  /** Comparing ordinals is comparing dates the way Python does. */
  lemma OrdinalOrder(a: Date, b: Date)
    ensures Ordinal(a) < Ordinal(b) <==> Before(a, b)
    ensures Ordinal(a) == Ordinal(b) <==> a == b
  {
    if a.year < b.year {
      EarlierYear(a, b);
    } else if b.year < a.year {
      EarlierYear(b, a);
    } else if a.month < b.month {
      MonthsInOrder(a.year, a.month, b.month);
    } else if b.month < a.month {
      MonthsInOrder(a.year, b.month, a.month);
    }
  }
}
