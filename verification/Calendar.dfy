/** The calendar half of the owner-text printer: Unix days to a Gregorian date, by the
    era arithmetic of `push_utc`, against a calendar that walks day by day. */
module Calendar {
  import opened Numbers

  datatype Date = Date(year: nat, month: nat, day: nat)

  // ---- the reference calendar: one day after another from 1970-01-01 ----

  /** The leap rule of Appendix C of RFC 3339. */
  predicate IsLeap(year: nat) {
    year % 4 == 0 && (year % 100 != 0 || year % 400 == 0)
  }

  function DaysInMonth(year: nat, month: nat): nat {
    if month == 2 then (if IsLeap(year) then 29 else 28)
    else if month == 4 || month == 6 || month == 9 || month == 11 then 30
    else 31
  }

  predicate Valid(d: Date) {
    d.year >= 1970 && 1 <= d.month <= 12 && 1 <= d.day <= DaysInMonth(d.year, d.month)
  }

  function NextDay(d: Date): Date {
    if d.day < DaysInMonth(d.year, d.month) then Date(d.year, d.month, d.day + 1)
    else if d.month < 12 then Date(d.year, d.month + 1, 1)
    else Date(d.year + 1, 1, 1)
  }

  /** The date `days` days after 1970-01-01, reached one day at a time. */
  function DateAfter(days: nat): Date {
    if days == 0 then Date(1970, 1, 1) else NextDay(DateAfter(days - 1))
  }

  // ---- the source's arithmetic ----

  function YearOfEra(doe: nat): nat
    requires doe < 146_097
  {
    (doe - doe / 1_460 + doe / 36_524 - doe / 146_096) / 365
  }

  function MonthStart(mp: nat): nat {
    (153 * mp + 2) / 5
  }

  /** A year that starts in March and a day of it, as a January-based date. */
  function FromMarch(year: nat, doy: nat): Date
    requires doy <= 365
  {
    var mp := (5 * doy + 2) / 153;
    MonthFromDayOfYear(doy);
    var month := if mp < 10 then mp + 3 else mp - 9;
    Date(year + (if month <= 2 then 1 else 0), month, doy - MonthStart(mp) + 1)
  }

  lemma MonthFromDayOfYear(doy: nat)
    requires doy <= 365
    ensures var mp := (5 * doy + 2) / 153;
            mp <= 11 && MonthStart(mp) <= doy < MonthStart(mp + 1)
  {
  }

  /** Year of the era and day of that year, from March. */
  function DayInEra(doe: nat): (p: (nat, nat))
    requires doe < 146_097
    ensures p.0 < 400 && doe == 365 * p.0 + p.0 / 4 - p.0 / 100 + p.1
    ensures p.1 <= 365 && (p.1 == 365 ==> IsLeap(p.0 + 1))
  {
    EraParts(doe);
    var yoe := YearOfEra(doe);
    (yoe, doe - (365 * yoe + yoe / 4 - yoe / 100))
  }

  function Era(days: nat): nat {
    (days + 719_468) / 146_097
  }

  function DayOfEra(days: nat): (doe: nat)
    ensures doe < 146_097
  {
    days + 719_468 - Era(days) * 146_097
  }

  /** `push_utc`: era, year of era, day of year (from March), month, day. */
  function CivilFromDays(days: nat): Date {
    FromMarch(DayInEra(DayOfEra(days)).0 + Era(days) * 400, DayInEra(DayOfEra(days)).1)
  }

  // ---- the shape of an era ----

  /** Century, four-year cycle and year of a day in an era: the cycles the divisors count. */
  datatype Cycles = Cycles(century: nat, quad: nat, year: nat, day: nat)

  function Split(doe: nat): Cycles
    requires doe < 146_097
  {
    var c := if doe / 36_524 < 3 then doe / 36_524 else 3;
    var e := doe - 36_524 * c;
    var q := e / 1_461;
    var f := e - 1_461 * q;
    var k := if f / 365 < 3 then f / 365 else 3;
    Cycles(c, q, k, f - 365 * k)
  }

  predicate InCycles(s: Cycles) {
    && s.century <= 3 && s.quad <= 24 && s.year <= 3
    && (s.year < 3 ==> s.day <= 364)
    && (s.year == 3 ==> s.day <= 365)
    && (s.quad == 24 && s.century < 3 && s.year == 3 ==> s.day <= 364)
  }

  lemma SplitInCycles(doe: nat)
    requires doe < 146_097
    ensures var s := Split(doe);
            InCycles(s) && doe == 36_524 * s.century + 1_461 * s.quad + 365 * s.year + s.day
  {
  }

  /** The nested corrections of the printer count exactly the cycles gone by. */
  lemma YearOfEraCounts(doe: nat, s: Cycles)
    requires doe < 146_097 && InCycles(s)
    requires doe == 36_524 * s.century + 1_461 * s.quad + 365 * s.year + s.day
    ensures YearOfEra(doe) == 100 * s.century + 4 * s.quad + s.year
  {
    var f := 365 * s.year + s.day;
    var over := (24 * s.century + s.quad + f) / 1_460;
    assert doe / 1_460 == 25 * s.century + s.quad + over;
    assert doe / 36_524 - doe / 146_096 == s.century by {
      CenturyCount(doe, s);
    }
    assert 0 <= over <= 1;
    assert doe - doe / 1_460 + doe / 36_524 - doe / 146_096 == 365 * (100 * s.century + 4 * s.quad) + f - over;
  }

  lemma CenturyCount(doe: nat, s: Cycles)
    requires doe < 146_097 && InCycles(s)
    requires doe == 36_524 * s.century + 1_461 * s.quad + 365 * s.year + s.day
    ensures doe / 36_524 - doe / 146_096 == s.century
  {
    var e := 1_461 * s.quad + 365 * s.year + s.day;
    if e == 36_524 {
      assert s.century == 3;
    } else {
      assert e < 36_524 && doe < 146_096;
      DivModUnique(doe, 36_524, s.century, e);
    }
  }

  /** Year and day of year inside an era, read off the cycles. */
  lemma EraParts(doe: nat)
    requires doe < 146_097
    ensures var y := YearOfEra(doe);
            y < 400 && 365 * y + y / 4 - y / 100 <= doe
            && doe - (365 * y + y / 4 - y / 100) == Split(doe).day
            && (Split(doe).day == 365 ==> IsLeap(y + 1))
            && Split(doe).day <= 365
  {
    SplitInCycles(doe);
    var s := Split(doe);
    YearOfEraCounts(doe, s);
    var y := YearOfEra(doe);
    assert y / 4 == 25 * s.century + s.quad;
    assert y / 100 == s.century;
    if s.day == 365 {
      assert y + 1 == 100 * s.century + 4 * (s.quad + 1);
    }
  }

  // ---- counting days back from a date ----

  function YearLength(year: nat): nat {
    if IsLeap(year) then 366 else 365
  }

  function DaysToYear(year: nat): nat
    requires year >= 1970
  {
    if year == 1970 then 0 else DaysToYear(year - 1) + YearLength(year - 1)
  }

  function DaysToMonth(year: nat, month: nat): nat
    requires 1 <= month <= 12
  {
    if month == 1 then 0 else DaysToMonth(year, month - 1) + DaysInMonth(year, month - 1)
  }

  /** The number of whole days between 1970-01-01 and a date. */
  function DayNumber(d: Date): nat
    requires Valid(d)
  {
    DaysToYear(d.year) + DaysToMonth(d.year, d.month) + d.day - 1
  }

  function LeapsUpTo(year: nat): int {
    year / 4 - year / 100 + year / 400
  }

  lemma {:induction false} DaysToYearClosed(year: nat)
    requires year >= 1970
    ensures DaysToYear(year) == 365 * (year - 1970) + LeapsUpTo(year - 1) - 477
  {
    if year > 1970 {
      DaysToYearClosed(year - 1);
      LeapsStep(year - 1);
    }
  }

  lemma LeapsStep(year: nat)
    requires year > 0
    ensures LeapsUpTo(year) == LeapsUpTo(year - 1) + (if IsLeap(year) then 1 else 0)
  {
    DivStep(year, 4);
    DivStep(year, 100);
    DivStep(year, 400);
    Divisors(year);
  }

  lemma Divisors(n: nat)
    ensures n % 400 == 0 ==> n % 100 == 0
    ensures n % 100 == 0 ==> n % 4 == 0
  {
    assert n % 400 == 0 ==> n == 100 * (4 * (n / 400));
    assert n % 100 == 0 ==> n == 4 * (25 * (n / 100));
  }

  lemma DivStep(n: nat, d: nat)
    requires n > 0 && (d == 4 || d == 100 || d == 400)
    ensures n / d == (n - 1) / d + (if n % d == 0 then 1 else 0)
  {
  }

  lemma MonthTable(year: nat)
    ensures var l := if IsLeap(year) then 1 else 0;
            && DaysToMonth(year, 1) == 0 && DaysToMonth(year, 2) == 31
            && DaysToMonth(year, 3) == 59 + l && DaysToMonth(year, 4) == 90 + l
            && DaysToMonth(year, 5) == 120 + l && DaysToMonth(year, 6) == 151 + l
            && DaysToMonth(year, 7) == 181 + l && DaysToMonth(year, 8) == 212 + l
            && DaysToMonth(year, 9) == 243 + l && DaysToMonth(year, 10) == 273 + l
            && DaysToMonth(year, 11) == 304 + l && DaysToMonth(year, 12) == 334 + l
  {
    assert DaysToMonth(year, 3) == DaysToMonth(year, 2) + DaysInMonth(year, 2);
    assert DaysToMonth(year, 5) == DaysToMonth(year, 4) + 30;
    assert DaysToMonth(year, 7) == DaysToMonth(year, 6) + 30;
    assert DaysToMonth(year, 9) == DaysToMonth(year, 8) + 31;
    assert DaysToMonth(year, 11) == DaysToMonth(year, 10) + 31;
  }

  // ---- the walking calendar and the count are inverse ----

  lemma NextDayCounts(d: Date)
    requires Valid(d)
    ensures Valid(NextDay(d)) && DayNumber(NextDay(d)) == DayNumber(d) + 1
  {
    MonthTable(d.year);
    MonthTable(d.year + 1);
  }

  lemma {:induction false} DateAfterCounts(days: nat)
    ensures Valid(DateAfter(days)) && DayNumber(DateAfter(days)) == days
  {
    if days == 0 {
      assert DaysToMonth(1970, 1) == 0 && DaysToYear(1970) == 0;
    } else {
      DateAfterCounts(days - 1);
      NextDayCounts(DateAfter(days - 1));
    }
  }

  lemma {:induction false} DaysToYearMonotone(a: nat, b: nat)
    requires 1970 <= a <= b
    ensures DaysToYear(a) <= DaysToYear(b)
  {
    if a < b {
      DaysToYearMonotone(a, b - 1);
    }
  }

  lemma WithinYear(d: Date)
    requires Valid(d)
    ensures DaysToYear(d.year) <= DayNumber(d) < DaysToYear(d.year + 1)
  {
    MonthTable(d.year);
  }

  /** No two valid dates have the same day number. */
  lemma DayNumberInjective(a: Date, b: Date)
    requires Valid(a) && Valid(b) && DayNumber(a) == DayNumber(b)
    ensures a == b
  {
    WithinYear(a);
    WithinYear(b);
    if a.year < b.year {
      DaysToYearMonotone(a.year + 1, b.year);
    } else if b.year < a.year {
      DaysToYearMonotone(b.year + 1, a.year);
    } else {
      MonthTable(a.year);
    }
  }

  // ---- the printer agrees with the walking calendar ----

  /** The printed date is a date of the calendar, and its day number is the day printed. */
  lemma CivilCounts(days: nat)
    ensures Valid(CivilFromDays(days)) && DayNumber(CivilFromDays(days)) == days
  {
    var p := DayInEra(DayOfEra(days));
    CountFromEra(Era(days), DayOfEra(days), p.0, p.1, days);
  }

  lemma CountFromEra(era: nat, doe: nat, yoe: nat, doy: nat, days: nat)
    requires days + 719_468 == 146_097 * era + doe
    requires yoe < 400 && doe == 365 * yoe + yoe / 4 - yoe / 100 + doy
    requires doy <= 365 && (doy == 365 ==> IsLeap(yoe + 1))
    ensures var d := FromMarch(yoe + era * 400, doy);
            Valid(d) && DayNumber(d) == days
  {
    EraToDays(era, doe, yoe, doy);
    CountFromMarch(yoe + era * 400, doy, days);
  }

  lemma EraToDays(era: nat, doe: nat, yoe: nat, doy: nat)
    requires yoe < 400 && doe == 365 * yoe + yoe / 4 - yoe / 100 + doy
    requires doy == 365 ==> IsLeap(yoe + 1)
    ensures var y := yoe + era * 400;
            146_097 * era + doe == 365 * y + LeapsUpTo(y) + doy && (doy == 365 ==> IsLeap(y + 1))
  {
    LeapInEra(yoe, era);
  }

  lemma LeapInEra(yoe: nat, era: nat)
    requires yoe < 400
    ensures var y := yoe + era * 400;
            LeapsUpTo(y) == yoe / 4 - yoe / 100 + 97 * era && (IsLeap(y + 1) <==> IsLeap(yoe + 1))
  {
    DivModShift(yoe, 4, 100 * era);
    DivModShift(yoe, 100, 4 * era);
    DivModShift(yoe, 400, era);
    DivModShift(yoe + 1, 4, 100 * era);
    DivModShift(yoe + 1, 100, 4 * era);
    DivModShift(yoe + 1, 400, era);
  }

  /** From a March-based year and day of year to the January-based count. */
  lemma CountFromMarch(y: nat, doy: nat, days: nat)
    requires doy <= 365 && (doy == 365 ==> IsLeap(y + 1))
    requires days + 719_468 == 365 * y + LeapsUpTo(y) + doy
    ensures var d := FromMarch(y, doy);
            Valid(d) && DayNumber(d) == days
  {
    YearBound(y, doy, days);
    if (5 * doy + 2) / 153 < 10 {
      CountFromSpring(y, doy, days);
    } else {
      CountFromWinter(y, doy, days);
    }
  }

  /** March to December: the year is the March-based one. */
  lemma CountFromSpring(y: nat, doy: nat, days: nat)
    requires doy <= 365 && (5 * doy + 2) / 153 < 10 && 1970 <= y
    requires days + 719_468 == 365 * y + LeapsUpTo(y) + doy
    ensures var d := FromMarch(y, doy);
            Valid(d) && DayNumber(d) == days
  {
    var d := FromMarch(y, doy);
    MonthFromDayOfYear(doy);
    MonthTable(d.year);
    DaysToYearClosed(d.year);
    LeapsStep(y);
  }

  /** January and February: the year is the next. */
  lemma CountFromWinter(y: nat, doy: nat, days: nat)
    requires doy <= 365 && (doy == 365 ==> IsLeap(y + 1)) && 10 <= (5 * doy + 2) / 153 && 1969 <= y
    requires days + 719_468 == 365 * y + LeapsUpTo(y) + doy
    ensures var d := FromMarch(y, doy);
            Valid(d) && DayNumber(d) == days
  {
    var d := FromMarch(y, doy);
    MonthFromDayOfYear(doy);
    MonthTable(d.year);
    DaysToYearClosed(d.year);
  }

  lemma YearBound(y: nat, doy: nat, days: nat)
    requires doy <= 365
    requires days + 719_468 == 365 * y + LeapsUpTo(y) + doy
    ensures y >= 1969 && (y == 1969 ==> doy >= 306)
  {
  }

  /** For every timestamp, the printed date is the one the day-by-day calendar reaches, and
      counting back from it gives the day again. */
  lemma PrinterIsCalendar(days: nat)
    ensures CivilFromDays(days) == DateAfter(days)
    ensures Valid(CivilFromDays(days)) && DayNumber(CivilFromDays(days)) == days
  {
    CivilCounts(days);
    DateAfterCounts(days);
    DayNumberInjective(CivilFromDays(days), DateAfter(days));
  }

  /** And it is the only valid date that counts back to the day. */
  lemma PrintedDateIsUnique(days: nat, d: Date)
    requires Valid(d)
    ensures d == CivilFromDays(days) <==> DayNumber(d) == days
  {
    CivilCounts(days);
    if DayNumber(d) == days {
      DayNumberInjective(d, CivilFromDays(days));
    }
  }
}
