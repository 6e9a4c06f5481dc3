/** Days, months and years of the Gregorian calendar (section 3.2.1 of ISO 8601:2004), counted from 1 January of year
    0. */
module Calendar {
  import opened Division

  predicate IsLeapYear(y: int) {
    (y % 4 == 0 && y % 100 != 0) || y % 400 == 0
  }

  function GetLeapDays(y: int): int {
    if y < 1 then 0 else (y + 3) / 4 - (y - 1) / 100 + (y - 1) / 400
  }

  /** The leap years among years 0 to y - 1, counted one by one. */
  function LeapYearsBefore(y: nat): nat {
    if y == 0 then 0 else LeapYearsBefore(y - 1) + (if IsLeapYear(y - 1) then 1 else 0)
  }

  lemma Multiples(y: int)
    ensures y % 400 == 0 ==> y % 100 == 0
    ensures y % 100 == 0 ==> y % 4 == 0
  {
    if y % 400 == 0 { Divides(y, 100, 4 * (y / 400), 0); }
    if y % 100 == 0 { Divides(y, 4, 25 * (y / 100), 0); }
  }

  lemma FourthStep(y: int)
    requires y >= 1
    ensures (y + 4) / 4 == (y + 3) / 4 + (if y % 4 == 0 then 1 else 0)
  {
    QuotientStep(y + 3, 4);
    assert (y + 4) % 4 == y % 4;
  }

  lemma FormulaStep(y: int)
    requires y >= 1
    ensures GetLeapDays(y + 1) == GetLeapDays(y) + (if IsLeapYear(y) then 1 else 0)
  {
    FourthStep(y);
    QuotientStep(y - 1, 100);
    QuotientStep(y - 1, 400);
    Multiples(y);
  }

  /** The closed formula counts the leap years. */
  lemma {:induction false} LeapDaysCount(y: nat)
    ensures GetLeapDays(y) == LeapYearsBefore(y)
  {
    if y >= 2 {
      LeapDaysCount(y - 1);
      FormulaStep(y - 1);
    }
  }

  /** The number of the first day of year `y`. Below year 0 every year counts 365 days. */
  function YearStart(y: int): int { y * 365 + GetLeapDays(y) }

  function YearLength(y: int): int { if y >= 0 && IsLeapYear(y) then 366 else 365 }

  lemma YearStep(y: int)
    ensures YearStart(y + 1) == YearStart(y) + YearLength(y)
  {
    if y >= 0 {
      LeapDaysCount(y);
      LeapDaysCount(y + 1);
    }
  }

  lemma {:induction false} YearsInOrder(y: int, z: int)
    requires y < z
    ensures YearStart(y + 1) <= YearStart(z)
    decreases z - y
  {
    if y + 1 < z {
      YearsInOrder(y, z - 1);
      YearStep(z - 1);
    }
  }

  // ----- months

  const YEAR_DAYS: seq<int> := [0, 31, 59, 90, 120, 151, 181, 212, 243, 273, 304, 334]
  const LEAP_YEAR_DAYS: seq<int> := [0, 31, 60, 91, 121, 152, 182, 213, 244, 274, 305, 335]

  function Table(leap: bool): (t: seq<int>)
    ensures |t| == 12
  {
    if leap then LEAP_YEAR_DAYS else YEAR_DAYS
  }

  /** Thirty days have April, June, September and November. */
  function MonthLength(leap: bool, m: int): int {
    if m == 1 then (if leap then 29 else 28)
    else if m == 3 || m == 5 || m == 8 || m == 10 then 30
    else 31
  }

  function MonthStart(leap: bool, m: nat): int {
    if m == 0 then 0 else MonthStart(leap, m - 1) + MonthLength(leap, m - 1)
  }

  /** The tables hold the running totals of the month lengths. */
  lemma {:induction false} TableSums(leap: bool, m: nat)
    requires m < 12
    ensures Table(leap)[m] == MonthStart(leap, m)
  {
    if m > 0 { TableSums(leap, m - 1); }
  }

  lemma MonthsTotal(leap: bool)
    ensures MonthStart(leap, 12) == if leap then 366 else 365
  {
    TableSums(leap, 11);
  }

  lemma {:induction false} MonthsInOrder(leap: bool, m: nat, n: nat)
    requires m < n
    ensures MonthStart(leap, m) + MonthLength(leap, m) <= MonthStart(leap, n)
    decreases n
  {
    if m + 1 < n { MonthsInOrder(leap, m, n - 1); }
  }

  // ----- dates

  datatype Date = Date(year: int, mon: int, mday: int, yday: int, wday: int)

  ghost predicate ValidDate(d: Date) {
    var leap := IsLeapYear(d.year);
    && 0 <= d.mon < 12 && 1 <= d.mday <= MonthLength(leap, d.mon)
    && d.yday == MonthStart(leap, d.mon) + d.mday - 1 && 0 <= d.yday < YearLength(d.year)
  }

  /** The number of the day that a date names. */
  function DayNumber(d: Date): int
    requires d.mon >= 0
  {
    YearStart(d.year) + MonthStart(IsLeapYear(d.year), d.mon) + d.mday - 1
  }

  /** A day has one date. */
  lemma DateUnique(d: Date, e: Date)
    requires ValidDate(d) && ValidDate(e) && DayNumber(d) == DayNumber(e)
    ensures d.year == e.year && d.mon == e.mon && d.mday == e.mday && d.yday == e.yday
  {
    YearStep(d.year);
    YearStep(e.year);
    if d.year < e.year { YearsInOrder(d.year, e.year); }
    if e.year < d.year { YearsInOrder(e.year, d.year); }
    var leap := IsLeapYear(d.year);
    if d.mon < e.mon { MonthsInOrder(leap, d.mon, e.mon); }
    if e.mon < d.mon { MonthsInOrder(leap, e.mon, d.mon); }
  }

  /** The remainder of C: it takes the sign of the dividend. */
  function CRem(a: int, b: int): int
    requires b > 0
  {
    if a >= 0 then a % b else -((-a) % b)
  }

  /** The quotient of C: it drops the fraction. */
  function CQuot(a: int, b: int): int
    requires b > 0
  {
    if a >= 0 then a / b else -((-a) / b)
  }

  lemma CDivision(a: int, b: int)
    requires b > 0
    ensures a == b * CQuot(a, b) + CRem(a, b) && -b < CRem(a, b) < b
    ensures CRem(a, b) >= 0 ==> CQuot(a, b) == a / b && CRem(a, b) == a % b
    ensures CRem(a, b) < 0 ==> CQuot(a, b) - 1 == a / b && CRem(a, b) + b == a % b
  {
    if a < 0 {
      var q, r := (-a) / b, (-a) % b;
      assert -a == b * q + r;
      assert b * (-q) == -(b * q);
      if r == 0 {
        Divides(a, b, -q, 0);
      } else {
        assert b * (-q - 1) == -(b * q) - b;
        Divides(a, b, -q - 1, b - r);
      }
    }
  }
}
