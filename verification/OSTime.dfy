/** Timer ticks to calendar time. */
module OSTime {
  import opened Calendar
  import opened Division

  const TICKS_PER_SEC: int := 40_500_000
  const TICKS_PER_MSEC: int := 40_500
  const SECS_PER_DAY: int := 86_400
  /** The first day of the year 2000, where the timer starts. */
  const BIAS: int := 2000 * 365 + (2000 + 3) / 4 - (2000 - 1) / 100 + (2000 - 1) / 400
  const MIN_INT64: int := -0x8000_0000_0000_0000
  const MAX_INT64: int := 0x7FFF_FFFF_FFFF_FFFF

  lemma BiasIsYear2000()
    ensures BIAS == YearStart(2000) == 730_485
  {
  }

  lemma YearsReach(y: int, days: int)
    requires y <= 0 && y <= days
    ensures YearStart(y) <= days
  {
  }

  lemma LeapDaysPositive(y: int)
    ensures GetLeapDays(y) >= 0
  {
    if y >= 0 { LeapDaysCount(y); }
  }

  /** The first guess at the year is never too low. */
  lemma FirstGuess(days: int)
    ensures days < YearStart(CQuot(days, 365) + 1)
  {
    CDivision(days, 365);
    LeapDaysPositive(CQuot(days, 365) + 1);
  }

  lemma MonthFound(leap: bool, m: nat, rest: int)
    requires m < 12 && Table(leap)[m] <= rest
    requires m < 11 ==> rest < Table(leap)[m + 1]
    requires rest < 366 && (!leap ==> rest < 365)
    ensures MonthStart(leap, m) <= rest < MonthStart(leap, m) + MonthLength(leap, m)
  {
    TableSums(leap, m);
    if m < 11 { TableSums(leap, m + 1); } else { MonthsTotal(leap); }
  }

  /** The date of a day number of either sign. */
  method GetDates(days: int) returns (d: Date)
    ensures ValidDate(d) && DayNumber(d) == days
    ensures d.wday == (days + 6) % 7 <==> days >= -6 || (days + 6) % 7 == 0
  {
    var wday := CRem(days + 6, 7);
    CDivision(days + 6, 7);
    var year := CQuot(days, 365);
    FirstGuess(days);
    ghost var low := if days < 0 then days else 0;
    CDivision(days, 365);
    while days < year * 365 + GetLeapDays(year)
      invariant low <= year && days < YearStart(year + 1)
      decreases year - low
    {
      if year == low { YearsReach(year, days); }
      year := year - 1;
    }
    YearStep(year);
    var rest := days - (year * 365 + GetLeapDays(year));
    var table := Table(IsLeapYear(year));
    var month := 11;
    while rest < table[month]
      invariant 0 <= month < 12 && (month < 11 ==> rest < table[month + 1])
    {
      month := month - 1;
    }
    MonthFound(IsLeapYear(year), month, rest);
    TableSums(IsLeapYear(year), month);
    d := Date(year, month, rest - table[month] + 1, rest, wday);
  }

  datatype CalendarTime = CalendarTime(date: Date, hour: int, min: int, sec: int, msec: int, usec: int)

  ghost predicate ValidTime(t: CalendarTime) {
    && ValidDate(t.date) && 0 <= t.hour < 24 && 0 <= t.min < 60 && 0 <= t.sec < 60
    && 0 <= t.msec < 1000 && 0 <= t.usec < 1000
  }

  /** The seconds from the start of the year 2000. */
  function Seconds(t: CalendarTime): int
    requires t.date.mon >= 0
  {
    (DayNumber(t.date) - BIAS) * SECS_PER_DAY + t.hour * 3600 + t.min * 60 + t.sec
  }

  /** The whole seconds in `ticks`, rounded down, can be given back as ticks without leaving 64 bits. */
  predicate Fits(ticks: int) {
    MIN_INT64 <= ticks - ticks % TICKS_PER_SEC && ticks <= MAX_INT64
  }

  lemma SubSecond(d: int)
    requires 0 <= d < TICKS_PER_SEC
    ensures var u := d * 8 / 324;
      && 0 <= u < 1_000_000 && 0 <= d / TICKS_PER_MSEC < 1000
      && (d / TICKS_PER_MSEC) % 1000 * 1000 + u % 1000 == u
  {
    var u, m := d * 8 / 324, d / TICKS_PER_MSEC;
    assert m * 324_000 <= d * 8 < (m + 1) * 324_000;
    assert u * 324 <= d * 8 < (u + 1) * 324;
    assert m * 1000 <= u < (m + 1) * 1000;
    Divides(u, 1000, m, u - m * 1000);
  }

  lemma Clock(secs: int)
    requires 0 <= secs < SECS_PER_DAY
    ensures var (h, m, s) := (secs / 60 / 60, secs / 60 % 60, secs % 60);
      0 <= h < 24 && 0 <= m < 60 && 0 <= s < 60 && h * 3600 + m * 60 + s == secs
  {
  }

  lemma DayFits(sec: int, ticks: int)
    requires Fits(ticks) && sec == ticks / TICKS_PER_SEC
    ensures -0x8000_0000 <= sec / SECS_PER_DAY + BIAS - 1 && sec / SECS_PER_DAY + BIAS + 1 < 0x8000_0000
  {
  }

  /** The calendar time gives back the seconds, rounded down, and the microseconds, rounded down; for ticks of either
      sign. */
  method OSTicksToCalendarTime(ticks: int) returns (td: CalendarTime)
    requires Fits(ticks)
    ensures ValidTime(td) && Seconds(td) == ticks / TICKS_PER_SEC
    ensures td.msec * 1000 + td.usec == ticks % TICKS_PER_SEC * 8 / 324
  {
    var d := CRem(ticks, TICKS_PER_SEC);
    CDivision(ticks, TICKS_PER_SEC);
    if d < 0 { d := d + TICKS_PER_SEC; }
    assert d == ticks % TICKS_PER_SEC;
    SubSecond(d);
    var usec, msec := d * 8 / 324 % 1000, d / TICKS_PER_MSEC % 1000;
    var sec := CQuot(ticks - d, TICKS_PER_SEC);
    WholeSeconds(ticks);
    DayFits(sec, ticks);
    CDivision(sec, SECS_PER_DAY);
    var days := CQuot(sec, SECS_PER_DAY) + BIAS;
    var secs := CRem(sec, SECS_PER_DAY);
    if secs < 0 {
      days := days - 1;
      secs := secs + 24 * 60 * 60;
    }
    assert days - BIAS == sec / SECS_PER_DAY && secs == sec % SECS_PER_DAY;
    var date := GetDates(days);
    Clock(secs);
    td := CalendarTime(date, secs / 60 / 60, secs / 60 % 60, secs % 60, msec, usec);
  }

  lemma WholeSeconds(ticks: int)
    ensures CQuot(ticks - ticks % TICKS_PER_SEC, TICKS_PER_SEC) == ticks / TICKS_PER_SEC
  {
    var q := ticks / TICKS_PER_SEC;
    assert ticks - ticks % TICKS_PER_SEC == TICKS_PER_SEC * q + 0;
    Divides(ticks - ticks % TICKS_PER_SEC, TICKS_PER_SEC, q, 0);
    CDivision(ticks - ticks % TICKS_PER_SEC, TICKS_PER_SEC);
  }

  /** Two instants with the same calendar time fall in the same second and the same microsecond. */
  lemma TimeUnique(t: CalendarTime, u: CalendarTime)
    requires ValidTime(t) && ValidTime(u) && Seconds(t) == Seconds(u)
      && t.msec * 1000 + t.usec == u.msec * 1000 + u.usec
    ensures t.date.year == u.date.year && t.date.mon == u.date.mon && t.date.mday == u.date.mday
      && t.date.yday == u.date.yday
    ensures t.hour == u.hour && t.min == u.min && t.sec == u.sec && t.msec == u.msec && t.usec == u.usec
  {
    assert DayNumber(t.date) == DayNumber(u.date);
    DateUnique(t.date, u.date);
  }
}
