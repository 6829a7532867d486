/**
 * Proleptic Gregorian calendar arithmetic as Python's `datetime` does it:
 * the leap rule, month lengths, day-of-year conversion, the absolute day
 * number (`date.toordinal`) and a seconds count used for subtraction.
 */
module Calendar {

  import opened Wrappers

  /** A naive `datetime` without microseconds. */
  datatype DateTime = DateTime(year: int, month: int, day: int, hour: int, minute: int, second: int)

  predicate IsLeapYear(y: int) {
    y % 4 == 0 && (y % 100 != 0 || y % 400 == 0)
  }

  function DaysInYear(y: int): int {
    if IsLeapYear(y) then 366 else 365
  }

  function DaysInMonth(y: int, m: int): (n: int)
    requires 1 <= m <= 12
    ensures 28 <= n <= 31
  {
    if m == 2 then (if IsLeapYear(y) then 29 else 28)
    else if m == 4 || m == 6 || m == 9 || m == 11 then 30
    else 31
  }

  /**
   * Python's `MINYEAR..MAXYEAR` together with the month and day ranges:
   * February 29 exists exactly in leap years.
   */
  predicate ValidDate(y: int, m: int, d: int)
    ensures ValidDate(y, m, d) ==> 1 <= d <= 31 && (m == 2 ==> d <= 29)
    ensures m == 2 && d == 29 ==> (ValidDate(y, m, d) <==> 1 <= y <= 9999 && IsLeapYear(y))
  {
    1 <= y <= 9999 && 1 <= m <= 12 && 1 <= d <= DaysInMonth(y, m)
  }

  /** The range checks of `datetime(...)`: a valid date and a time of day within one day. */
  predicate Valid(t: DateTime)
    ensures Valid(t) ==> 0 <= t.hour * 3600 + t.minute * 60 + t.second < 86400
  {
    ValidDate(t.year, t.month, t.day)
    && 0 <= t.hour < 24 && 0 <= t.minute < 60 && 0 <= t.second < 60
  }

  /** Days of the year `y` that lie before the first of month `m` (`m == 13` gives the year length). */
  function DaysBeforeMonth(y: int, m: int): (n: int)
    requires 1 <= m <= 13
    ensures m == 1 ==> n == 0
    ensures m == 13 ==> n == DaysInYear(y)
    ensures m > 1 ==> n == DaysBeforeMonth(y, m - 1) + DaysInMonth(y, m - 1)
  {
    var leap := if IsLeapYear(y) then 1 else 0;
    if m == 1 then 0
    else if m == 2 then 31
    else if m == 3 then 59 + leap
    else if m == 4 then 90 + leap
    else if m == 5 then 120 + leap
    else if m == 6 then 151 + leap
    else if m == 7 then 181 + leap
    else if m == 8 then 212 + leap
    else if m == 9 then 243 + leap
    else if m == 10 then 273 + leap
    else if m == 11 then 304 + leap
    else if m == 12 then 334 + leap
    else 365 + leap
  }

  lemma {:induction false} DaysBeforeMonthGrows(y: int, m: int, m': int)
    requires 1 <= m < m' <= 13
    ensures DaysBeforeMonth(y, m') >= DaysBeforeMonth(y, m + 1)
    decreases m' - m
  {
    if m' > m + 1 {
      DaysBeforeMonthGrows(y, m, m' - 1);
    }
  }

  /** The ordinal day (1-based) of a date within its year: Python's `tm_yday`. */
  function DayOfYear(y: int, m: int, d: int): (n: int)
    requires ValidDate(y, m, d)
    ensures 1 <= n <= DaysInYear(y)
  {
    DaysBeforeMonth(y, m) + d
  }

  /** Month and day of the `doy`-th day of year `y`, searching from month `m` on. */
  function MonthDayFrom(y: int, doy: int, m: int): (r: (int, int))
    requires 1 <= m <= 12 && DaysBeforeMonth(y, m) < doy <= DaysInYear(y)
    ensures 1 <= r.0 <= 12 && 1 <= r.1 <= DaysInMonth(y, r.0)
    ensures DaysBeforeMonth(y, r.0) + r.1 == doy
    decreases 12 - m
  {
    if m == 12 || doy <= DaysBeforeMonth(y, m + 1) then (m, doy - DaysBeforeMonth(y, m))
    else MonthDayFrom(y, doy, m + 1)
  }

  /** Month and day of the `doy`-th day of year `y`: the inverse of DayOfYear. */
  function MonthDay(y: int, doy: int): (r: (int, int))
    requires 1 <= y <= 9999 && 1 <= doy <= DaysInYear(y)
    ensures ValidDate(y, r.0, r.1) && DayOfYear(y, r.0, r.1) == doy
  {
    MonthDayFrom(y, doy, 1)
  }

  /** Two dates of one year with the same day-of-year are the same date. */
  lemma DayOfYearInjective(y: int, m: int, d: int, m': int, d': int)
    requires ValidDate(y, m, d) && ValidDate(y, m', d')
    requires DayOfYear(y, m, d) == DayOfYear(y, m', d')
    ensures m == m' && d == d'
  {
    if m < m' {
      DaysBeforeMonthGrows(y, m, m');
    } else if m' < m {
      DaysBeforeMonthGrows(y, m', m);
    }
  }

  /** Date -> day-of-year -> date is the identity. */
  lemma MonthDayOfDayOfYear(y: int, m: int, d: int)
    requires ValidDate(y, m, d)
    ensures MonthDay(y, DayOfYear(y, m, d)) == (m, d)
  {
    var r := MonthDay(y, DayOfYear(y, m, d));
    DayOfYearInjective(y, m, d, r.0, r.1);
  }

  /** Day-of-year -> date -> day-of-year is the identity. */
  lemma DayOfYearOfMonthDay(y: int, doy: int)
    requires 1 <= y <= 9999 && 1 <= doy <= DaysInYear(y)
    ensures DayOfYear(y, MonthDay(y, doy).0, MonthDay(y, doy).1) == doy
  {
  }

  /** Day 1 is January 1; day 60 is February 29 in a leap year and March 1 otherwise. */
  lemma MonthDayLandmarks(y: int)
    requires 1 <= y <= 9999
    ensures MonthDay(y, 1) == (1, 1)
    ensures IsLeapYear(y) ==> MonthDay(y, 60) == (2, 29)
    ensures !IsLeapYear(y) ==> MonthDay(y, 60) == (3, 1)
  {
    MonthDayOfDayOfYear(y, 1, 1);
    if IsLeapYear(y) {
      MonthDayOfDayOfYear(y, 2, 29);
    } else {
      MonthDayOfDayOfYear(y, 3, 1);
    }
  }

  /** Days in the years before `y`, counted from year 1 (so `date(y, 1, 1).toordinal() == DaysBeforeYear(y) + 1`). */
  function DaysBeforeYear(y: int): (n: nat)
    decreases y
  {
    if y <= 1 then 0 else DaysBeforeYear(y - 1) + DaysInYear(y - 1)
  }

  lemma {:induction false} DaysBeforeYearGrows(y: int, y': int)
    requires 1 <= y < y'
    ensures DaysBeforeYear(y') >= DaysBeforeYear(y) + DaysInYear(y)
    decreases y' - y
  {
    if y' > y + 1 {
      DaysBeforeYearGrows(y, y' - 1);
    }
  }

  /** Python's `date.toordinal()`: January 1 of year 1 is day 1. */
  function DayNumber(y: int, m: int, d: int): (n: int)
    requires ValidDate(y, m, d)
    ensures DaysBeforeYear(y) < n <= DaysBeforeYear(y) + DaysInYear(y)
  {
    DaysBeforeYear(y) + DayOfYear(y, m, d)
  }

  /** Seconds since 0001-01-01 00:00:00; differences of these are `timedelta.total_seconds()`. */
  function ToSeconds(t: DateTime): (s: int)
    requires Valid(t)
    ensures 86400 * DayNumber(t.year, t.month, t.day) <= s < 86400 * (DayNumber(t.year, t.month, t.day) + 1)
  {
    ((DayNumber(t.year, t.month, t.day) * 24 + t.hour) * 60 + t.minute) * 60 + t.second
  }

  /** Python's `<` on naive datetimes: the field tuples compared lexicographically. */
  predicate Before(a: DateTime, b: DateTime) {
    if a.year != b.year then a.year < b.year
    else if a.month != b.month then a.month < b.month
    else if a.day != b.day then a.day < b.day
    else if a.hour != b.hour then a.hour < b.hour
    else if a.minute != b.minute then a.minute < b.minute
    else a.second < b.second
  }

  /** Dates compared field by field are ordered exactly as their day numbers. */
  lemma DayNumberOrder(a: DateTime, b: DateTime)
    requires ValidDate(a.year, a.month, a.day) && ValidDate(b.year, b.month, b.day)
    ensures (a.year, a.month, a.day) == (b.year, b.month, b.day)
            <==> DayNumber(a.year, a.month, a.day) == DayNumber(b.year, b.month, b.day)
    ensures (a.year < b.year || (a.year == b.year && (a.month < b.month || (a.month == b.month && a.day < b.day))))
            <==> DayNumber(a.year, a.month, a.day) < DayNumber(b.year, b.month, b.day)
  {
    if a.year < b.year {
      DaysBeforeYearGrows(a.year, b.year);
    } else if b.year < a.year {
      DaysBeforeYearGrows(b.year, a.year);
    } else if a.month < b.month {
      DaysBeforeMonthGrows(a.year, a.month, b.month);
    } else if b.month < a.month {
      DaysBeforeMonthGrows(a.year, b.month, a.month);
    }
  }

  /**
   * The field-by-field order Python uses for `<` agrees with the order of the
   * seconds counts Python uses for subtraction, and equal counts mean equal times.
   */
  lemma BeforeIffEarlier(a: DateTime, b: DateTime)
    requires Valid(a) && Valid(b)
    ensures Before(a, b) <==> ToSeconds(a) < ToSeconds(b)
    ensures a == b <==> ToSeconds(a) == ToSeconds(b)
  {
    DayNumberOrder(a, b);
  }

  /** `validTime - timedelta(minutes=validTime.minute)`: the same date, hour and second, at minute 0. */
  function TopOfHour(t: DateTime): (r: DateTime)
    requires Valid(t)
    ensures Valid(r) && r.minute == 0
    ensures ToSeconds(r) == ToSeconds(t) - 60 * t.minute
    ensures (r.year, r.month, r.day, r.hour, r.second) == (t.year, t.month, t.day, t.hour, t.second)
  {
    t.(minute := 0)
  }

  /**
   * The date of day `j` of year `y` as `strptime`'s `%j` yields it: the day
   * whose day number is that of January 1 of `y` plus `j - 1`. Day 366 of a
   * common year is therefore January 1 of the next year, and there is no date
   * past 9999-12-31.
   */
  function OrdinalDate(y: int, j: int): (r: Option<(int, int, int)>)
    requires 1 <= y <= 9999 && 1 <= j <= 366
    ensures r.Some? ==> ValidDate(r.value.0, r.value.1, r.value.2)
    ensures r.Some? ==> DayNumber(r.value.0, r.value.1, r.value.2) == DaysBeforeYear(y) + j
    ensures r.None? <==> y == 9999 && j > DaysInYear(y)
    ensures j <= DaysInYear(y) ==> r.Some? && r.value.0 == y
  {
    if j <= DaysInYear(y) then
      var md := MonthDay(y, j);
      Some((y, md.0, md.1))
    else if y < 9999 then Some((y + 1, 1, 1))
    else None
  }

  /** The rollover case: day 366 of a common year before 9999 is January 1 of the following year. */
  lemma OrdinalDateRollover(y: int)
    requires 1 <= y < 9999 && !IsLeapYear(y)
    ensures OrdinalDate(y, 366) == Some((y + 1, 1, 1))
  {
  }
}
