/** Calendar dates as Python's `datetime.date` treats them: proleptic
    Gregorian, compared as (year, month, day) tuples, subtracted through their
    day ordinals, and printed in ISO format. */
module Dates {
  import opened Base
  import opened Text

  datatype Date = Date(year: int, month: int, day: int)

  const MinYear := 1
  const MaxYear := 9999

  predicate IsLeap(year: int) {
    year % 4 == 0 && (year % 100 != 0 || year % 400 == 0)
  }

  function DaysInMonth(year: int, month: int): (n: int)
    ensures 28 <= n <= 31
  {
    if month == 2 then (if IsLeap(year) then 29 else 28)
    else if month == 4 || month == 6 || month == 9 || month == 11 then 30
    else 31
  }

  /** The dates `date(year, month, day)` accepts without raising. */
  predicate Valid(d: Date) {
    MinYear <= d.year <= MaxYear && 1 <= d.month <= 12 && 1 <= d.day <= DaysInMonth(d.year, d.month)
  }

  function YearDays(year: int): int {
    if IsLeap(year) then 366 else 365
  }

  function DaysBeforeYear(year: int): int {
    var y := year - 1;
    y * 365 + y / 4 - y / 100 + y / 400
  }

  function DaysBeforeMonth(year: int, month: int): (n: int)
    ensures n >= 0
    decreases month
  {
    if month <= 1 then 0 else DaysBeforeMonth(year, month - 1) + DaysInMonth(year, month - 1)
  }

  /** `date.toordinal()`: day 1 is January 1 of year 1. */
  function Ordinal(d: Date): int {
    DaysBeforeYear(d.year) + DaysBeforeMonth(d.year, d.month) + d.day
  }

  /** Python's `a < b` on dates: tuple order. */
  predicate Before(a: Date, b: Date) {
    a.year < b.year || (a.year == b.year && (a.month < b.month || (a.month == b.month && a.day < b.day)))
  }

  /** `(b - a).days`. */
  function DaysBetween(a: Date, b: Date): int {
    Ordinal(b) - Ordinal(a)
  }

  /** `d.isoformat()`: YYYY-MM-DD. */
  function IsoFormat(d: Date): string {
    ZeroPad(if d.year < 0 then 0 else d.year, 4) + "-" +
    ZeroPad(if d.month < 0 then 0 else d.month, 2) + "-" +
    ZeroPad(if d.day < 0 then 0 else d.day, 2)
  }

  // ---------------------------------------------------------------------
  // Ordinals agree with the tuple order
  // ---------------------------------------------------------------------

  /** A year has 365 days, or 366 when it is a leap year. */
  lemma YearLength(year: int)
    requires year >= 1
    ensures DaysBeforeYear(year + 1) == DaysBeforeYear(year) + YearDays(year)
  {
    var y := year - 1;
    assert (y + 1) / 4 == y / 4 + (if (y + 1) % 4 == 0 then 1 else 0);
    assert (y + 1) / 100 == y / 100 + (if (y + 1) % 100 == 0 then 1 else 0);
    assert (y + 1) / 400 == y / 400 + (if (y + 1) % 400 == 0 then 1 else 0);
  }

  /** The months of a year add up to the year. */
  lemma MonthsFillYear(year: int)
    ensures DaysBeforeMonth(year, 13) == YearDays(year)
  {
  }

  /** A later month starts after every day of an earlier one. */
  lemma {:induction false} MonthsIncrease(year: int, m: int, m2: int)
    requires 1 <= m < m2
    ensures DaysBeforeMonth(year, m) + DaysInMonth(year, m) <= DaysBeforeMonth(year, m2)
    decreases m2 - m
  {
    if m2 > m + 1 {
      MonthsIncrease(year, m, m2 - 1);
    }
  }

  /** A later year starts after every day of an earlier one. */
  lemma {:induction false} YearsIncrease(y: int, y2: int)
    requires 1 <= y < y2
    ensures DaysBeforeYear(y) + YearDays(y) <= DaysBeforeYear(y2)
    decreases y2 - y
  {
    YearLength(y);
    if y2 > y + 1 {
      YearsIncrease(y + 1, y2);
      YearLength(y + 1);
    }
  }

  /** The day of a valid date lies within its year. */
  lemma WithinYear(d: Date)
    requires Valid(d)
    ensures DaysBeforeYear(d.year) < Ordinal(d) <= DaysBeforeYear(d.year) + YearDays(d.year)
  {
    MonthsFillYear(d.year);
    if d.month < 12 {
      MonthsIncrease(d.year, d.month, 13);
    }
  }

  /** On valid dates, Python's tuple comparison and the ordinal order agree,
      so a date is before another exactly when fewer days have elapsed. */
  lemma OrdinalOrder(a: Date, b: Date)
    requires Valid(a) && Valid(b)
    ensures Before(a, b) <==> Ordinal(a) < Ordinal(b)
  {
    WithinYear(a);
    WithinYear(b);
    if a.year < b.year {
      YearsIncrease(a.year, b.year);
    } else if b.year < a.year {
      YearsIncrease(b.year, a.year);
    } else if a.month < b.month {
      MonthsIncrease(a.year, a.month, b.month);
    } else if b.month < a.month {
      MonthsIncrease(a.year, b.month, a.month);
    }
  }

  // ---------------------------------------------------------------------
  // The day before
  // ---------------------------------------------------------------------

  /** December 31 is the day before the next January 1. */
  lemma NewYearsEve(year: int)
    requires year >= MinYear
    ensures Ordinal(Date(year, 12, 31)) + 1 == Ordinal(Date(year + 1, 1, 1))
  {
    YearLength(year);
    MonthsFillYear(year);
    assert DaysBeforeMonth(year, 13) == DaysBeforeMonth(year, 12) + 31;
    assert DaysBeforeMonth(year + 1, 1) == 0;
  }

  /** `d - timedelta(days=1)`; none for the first representable date, where
      Python raises `OverflowError`. */
  function PreviousDay(d: Date): (r: Option<Date>)
    requires Valid(d)
    ensures r.None? <==> d == Date(MinYear, 1, 1)
    ensures r.Some? ==> Valid(r.value)
  {
    if d.day > 1 then Some(Date(d.year, d.month, d.day - 1))
    else if d.month > 1 then Some(Date(d.year, d.month - 1, DaysInMonth(d.year, d.month - 1)))
    else if d.year > MinYear then Some(Date(d.year - 1, 12, 31))
    else None
  }

  /** The previous day is exactly one day earlier. */
  lemma PreviousDayOrdinal(d: Date)
    requires Valid(d) && d != Date(MinYear, 1, 1)
    ensures Ordinal(PreviousDay(d).value) == Ordinal(d) - 1
  {
    if d.day == 1 && d.month == 1 {
      NewYearsEve(d.year - 1);
    }
  }
}
