/** Calendar dates at day granularity, and the date-fns stepping functions
    (addDays, addWeeks, addMonths, addYears) that the forecast relies on. */
module Dates {

  datatype Date = Date(year: int, month: int, day: int)

  predicate IsLeapYear(y: int) {
    y % 4 == 0 && (y % 100 != 0 || y % 400 == 0)
  }

  function YearLength(y: int): int {
    if IsLeapYear(y) then 366 else 365
  }

  function DaysInMonth(y: int, m: int): (n: int)
    requires 1 <= m <= 12
    ensures 28 <= n <= 31
  {
    if m == 2 then (if IsLeapYear(y) then 29 else 28)
    else if m == 4 || m == 6 || m == 9 || m == 11 then 30
    else 31
  }

  predicate ValidDate(d: Date) {
    d.year >= 1 && 1 <= d.month <= 12 && 1 <= d.day <= DaysInMonth(d.year, d.month)
  }

  /** A valid Gregorian calendar date. */
  type Day = d: Date | ValidDate(d) witness Date(1970, 1, 1)

  /** Days in the years before `y`, counted from 1 January of year 1. */
  function DaysBeforeYear(y: int): int
    requires y >= 1
  {
    if y == 1 then 0 else DaysBeforeYear(y - 1) + YearLength(y - 1)
  }

  /** Days in the months of year `y` before month `m` (m == 13 gives the whole year). */
  function DaysBeforeMonth(y: int, m: int): int
    requires 1 <= m <= 13
  {
    var leap := if IsLeapYear(y) then 1 else 0;
    match m
    case 1 => 0
    case 2 => 31
    case 3 => 59 + leap
    case 4 => 90 + leap
    case 5 => 120 + leap
    case 6 => 151 + leap
    case 7 => 181 + leap
    case 8 => 212 + leap
    case 9 => 243 + leap
    case 10 => 273 + leap
    case 11 => 304 + leap
    case 12 => 334 + leap
    case _ => 365 + leap
  }

  /** The day number of a date: 0 for 1 January of year 1. */
  function DayNumber(d: Day): int {
    DaysBeforeYear(d.year) + DaysBeforeMonth(d.year, d.month) + d.day - 1
  }

  /** Lexicographic order on (year, month, day), the order of 'yyyy-MM-dd' strings. */
  predicate LexBefore(a: Date, b: Date) {
    a.year < b.year
    || (a.year == b.year && a.month < b.month)
    || (a.year == b.year && a.month == b.month && a.day < b.day)
  }

  function NextDay(d: Day): (r: Day)
  {
    if d.day < DaysInMonth(d.year, d.month) then Date(d.year, d.month, d.day + 1)
    else if d.month < 12 then Date(d.year, d.month + 1, 1)
    else Date(d.year + 1, 1, 1)
  }

  /** date-fns addDays for n >= 0. */
  function AddDays(d: Day, n: nat): Day
    decreases n
  {
    if n == 0 then d else AddDays(NextDay(d), n - 1)
  }

  function Min(a: int, b: int): int { if a <= b then a else b }

  /** date-fns addMonths(d, 1): the same day of the next month, clamped to that month's length. */
  function AddMonth(d: Day): Day
  {
    if d.month == 12 then Date(d.year + 1, 1, d.day)
    else Date(d.year, d.month + 1, Min(d.day, DaysInMonth(d.year, d.month + 1)))
  }

  /** date-fns addYears(d, 1): the same day and month of the next year (29 February becomes 28 February). */
  function AddYear(d: Day): Day
  {
    Date(d.year + 1, d.month, Min(d.day, DaysInMonth(d.year + 1, d.month)))
  }

  lemma DaysBeforeMonthStep(y: int, m: int)
    requires 1 <= m <= 12
    ensures DaysBeforeMonth(y, m + 1) == DaysBeforeMonth(y, m) + DaysInMonth(y, m)
    ensures DaysBeforeMonth(y, 13) == YearLength(y)
  {
  }

  /** The day number runs through year y exactly over [DaysBeforeYear(y), DaysBeforeYear(y + 1)). */
  lemma DayNumberInYear(d: Day)
    ensures DaysBeforeYear(d.year) <= DayNumber(d) < DaysBeforeYear(d.year) + YearLength(d.year)
  {
    DaysBeforeMonthStep(d.year, d.month);
    assert DaysBeforeMonth(d.year, d.month) + DaysInMonth(d.year, d.month) <= DaysBeforeMonth(d.year, 13);
  }

  lemma {:induction false} DaysBeforeYearMonotone(y1: int, y2: int)
    requires 1 <= y1 < y2
    ensures DaysBeforeYear(y1) + YearLength(y1) <= DaysBeforeYear(y2)
    decreases y2 - y1
  {
    if y1 + 1 < y2 {
      DaysBeforeYearMonotone(y1 + 1, y2);
    }
  }

  /** A later year means a later day number, whatever the month and day. */
  lemma LaterYearLaterDay(a: Day, b: Day)
    requires a.year < b.year
    ensures DayNumber(a) < DayNumber(b)
  {
    DayNumberInYear(a);
    DayNumberInYear(b);
    DaysBeforeYearMonotone(a.year, b.year);
  }

  /** The day number orders dates exactly as the calendar (and 'yyyy-MM-dd' strings) do. */
  lemma DayNumberOrder(a: Day, b: Day)
    ensures LexBefore(a, b) <==> DayNumber(a) < DayNumber(b)
    ensures a == b <==> DayNumber(a) == DayNumber(b)
  {
    if a.year < b.year {
      LaterYearLaterDay(a, b);
    } else if b.year < a.year {
      LaterYearLaterDay(b, a);
    } else if a.month != b.month {
      var lo, hi := if a.month < b.month then a else b, if a.month < b.month then b else a;
      DaysBeforeMonthStep(lo.year, lo.month);
      assert DaysBeforeMonth(lo.year, lo.month + 1) <= DaysBeforeMonth(lo.year, hi.month);
    }
  }

  lemma NextDayNumber(d: Day)
    ensures DayNumber(NextDay(d)) == DayNumber(d) + 1
  {
    DaysBeforeMonthStep(d.year, d.month);
  }

  lemma {:induction false} AddDaysNumber(d: Day, n: nat)
    ensures DayNumber(AddDays(d, n)) == DayNumber(d) + n
    decreases n
  {
    if n > 0 {
      NextDayNumber(d);
      AddDaysNumber(NextDay(d), n - 1);
    }
  }

  /** Adding one month moves to the next calendar month and never increases the day of the month. */
  lemma AddMonthShape(d: Day)
    ensures var r := AddMonth(d);
      (if d.month == 12 then r.year == d.year + 1 && r.month == 1 else r.year == d.year && r.month == d.month + 1)
      && r.day <= d.day
      && r.day == Min(d.day, DaysInMonth(r.year, r.month))
      && DayNumber(d) < DayNumber(r)
  {
    DayNumberOrder(d, AddMonth(d));
  }

  /** Adding one year keeps the month and clamps the day: February 29 becomes February 28. */
  lemma AddYearShape(d: Day)
    ensures var r := AddYear(d);
      r.year == d.year + 1 && r.month == d.month && r.day <= d.day
      && (d.month == 2 && d.day == 29 ==> r.day == 28)
      && (d.month != 2 || d.day != 29 ==> r.day == d.day)
  {
    if d.month == 2 && d.day == 29 {
      assert IsLeapYear(d.year);
      assert !IsLeapYear(d.year + 1);
    }
  }
}
