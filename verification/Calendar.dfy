/**
  Unix time to a civil date, as the devices view prints it. The source divides a shifted day
  count into 400-year eras, years and months that start in March. The reference here is the
  Gregorian calendar itself: the leap rule, month lengths and a running count of days.
 */
module Calendar {

  const SECONDS_PER_DAY: nat := 86_400

  datatype Date = Date(year: int, month: int, day: int)

  datatype DateTime = DateTime(date: Date, hour: int, minute: int)

  // ------------------------------------------------------------ the program

  /** The civil date `days` after 1970-01-01. */
  function CivilDate(days: nat): Date {
    var z := days + 719_468;
    DateInEra(z / 146_097, z % 146_097)
  }

  /** The date of day `doe` of the 400-year era `era`, eras starting on a 1 March. */
  function DateInEra(era: int, doe: int): Date {
    var yoe := (doe - doe / 1_460 + doe / 36_524 - doe / 146_096) / 365;
    var doy := doe - (365 * yoe + yoe / 4 - yoe / 100);
    var mp := (5 * doy + 2) / 153;
    var day := doy - (153 * mp + 2) / 5 + 1;
    var month := if mp < 10 then mp + 3 else mp - 9;
    var year := yoe + era * 400 + (if month <= 2 then 1 else 0);
    Date(year, month, day)
  }

  /** The minute a Unix time falls in. */
  function Utc(unix: nat): DateTime {
    var seconds := unix % SECONDS_PER_DAY;
    DateTime(CivilDate(unix / SECONDS_PER_DAY), seconds / 3_600, (seconds % 3_600) / 60)
  }

  // ------------------------------------------------------------ the calendar

  /** The leap rule (Appendix C of RFC 3339). */
  predicate IsLeap(year: int) {
    year % 4 == 0 && (year % 100 != 0 || year % 400 == 0)
  }

  /** Month lengths (section 5.7 of RFC 3339). */
  function DaysInMonth(year: int, month: int): int
    requires 1 <= month <= 12
  {
    if month == 2 then (if IsLeap(year) then 29 else 28)
    else if month in {4, 6, 9, 11} then 30
    else 31
  }

  predicate ValidDate(d: Date) {
    1 <= d.month <= 12 && 1 <= d.day <= DaysInMonth(d.year, d.month)
  }

  function DaysInYear(year: int): int {
    if IsLeap(year) then 366 else 365
  }

  /** Days from 1970-01-01 to the first day of `year`. */
  function DaysBeforeYear(year: int): int
    requires year >= 1970
    decreases year
  {
    if year == 1970 then 0 else DaysBeforeYear(year - 1) + DaysInYear(year - 1)
  }

  function DaysBeforeMonth(year: int, month: int): int
    requires 1 <= month <= 12
    decreases month
  {
    if month == 1 then 0 else DaysBeforeMonth(year, month - 1) + DaysInMonth(year, month - 1)
  }

  /** The number of days from 1970-01-01 to `d`, counted year by year and month by month. */
  function DayNumber(d: Date): int
    requires d.year >= 1970 && ValidDate(d)
  {
    DaysBeforeYear(d.year) + DaysBeforeMonth(d.year, d.month) + d.day - 1
  }

  function NextDay(d: Date): Date
    requires ValidDate(d)
  {
    if d.day < DaysInMonth(d.year, d.month) then Date(d.year, d.month, d.day + 1)
    else if d.month < 12 then Date(d.year, d.month + 1, 1)
    else Date(d.year + 1, 1, 1)
  }

  predicate Before(a: Date, b: Date) {
    a.year < b.year || (a.year == b.year && (a.month < b.month || (a.month == b.month && a.day < b.day)))
  }

  // ------------------------------------------------------------ years of an era

  /** Leap days in the March-based years before `y`. */
  function LeapDays(y: int): int {
    y / 4 - y / 100 + y / 400
  }

  lemma LeapDaysStep(y: int)
    ensures LeapDays(y) - LeapDays(y - 1) == if IsLeap(y) then 1 else 0
  {
    DivStep(y, 4);
    DivStep(y, 100);
    DivStep(y, 400);
    Multiple(y, 4);
    Multiple(y, 100);
  }

  lemma Multiple(y: int, n: int)
    requires n in {4, 100}
    ensures n == 100 && y % 400 == 0 ==> y % n == 0
    ensures n == 4 && y % 100 == 0 ==> y % n == 0
  {
    if n == 100 {
      assert y == 100 * (4 * (y / 400)) + y % 400;
    } else {
      assert y == 4 * (25 * (y / 100)) + y % 100;
    }
  }

  lemma DivStep(y: int, n: int)
    requires n in {4, 100, 400}
    ensures y / n - (y - 1) / n == if y % n == 0 then 1 else 0
  {
    var q := y / n;
    var r := y % n;
    if r == 0 {
      assert y - 1 == n * (q - 1) + (n - 1);
    } else {
      assert y - 1 == n * q + (r - 1);
    }
  }

  lemma {:induction false} DaysBeforeYearClosed(year: int)
    requires year >= 1970
    ensures DaysBeforeYear(year) == 365 * year + LeapDays(year - 1) - 719_527
    decreases year
  {
    if year > 1970 {
      DaysBeforeYearClosed(year - 1);
      LeapDaysStep(year - 1);
    }
  }

  /** A day of an era by century, four-year cycle, year and day of the March-based year. */
  predicate EraParts(doe: int, c: int, q: int, y: int, doy: int) {
    && 0 <= c <= 3 && 0 <= q <= 24 && 0 <= y <= 3 && 0 <= doy <= 365
    && doe == 36_524 * c + 1_461 * q + 365 * y + doy
    && (doy == 365 ==> y == 3 && (q < 24 || c == 3))
  }

  lemma EraPartsExist(doe: int) returns (c: int, q: int, y: int, doy: int)
    requires 0 <= doe < 146_097
    ensures EraParts(doe, c, q, y, doy)
  {
    c := if doe == 146_096 then 3 else doe / 36_524;
    var inCentury := doe - 36_524 * c;
    q := inCentury / 1_461;
    var inCycle := inCentury - 1_461 * q;
    y := if inCycle == 1_460 then 3 else inCycle / 365;
    doy := inCycle - 365 * y;
  }

  /** The source's year-of-era quotient picks out exactly the year the day falls in. */
  lemma YearOfEra(doe: int, c: int, q: int, y: int, doy: int)
    requires EraParts(doe, c, q, y, doy)
    ensures (doe - doe / 1_460 + doe / 36_524 - doe / 146_096) / 365 == 100 * c + 4 * q + y
  {
    var t := 24 * c + q + 365 * y + doy;
    assert doe == 1_460 * (25 * c + q) + t;
    var carry := if t >= 1_460 then 1 else 0;
    assert doe / 1_460 == 25 * c + q + carry;
    assert doe / 36_524 - doe / 146_096 == c;
    var n := 100 * c + 4 * q + y;
    assert doe - doe / 1_460 + c == 365 * n + (doy - carry);
    assert 0 <= doy - carry < 365;
  }

  lemma DayOfYear(c: int, q: int, y: int, doe: int, doy: int)
    requires EraParts(doe, c, q, y, doy)
    ensures var yoe := 100 * c + 4 * q + y;
            && 0 <= yoe <= 399
            && yoe / 4 == 25 * c + q && yoe / 100 == c
            && doe - (365 * yoe + yoe / 4 - yoe / 100) == doy
            && (doy == 365 ==> IsLeap(yoe + 1))
  {
    var yoe := 100 * c + 4 * q + y;
    assert yoe == 4 * (25 * c + q) + y;
    assert yoe == 100 * c + (4 * q + y) && 0 <= 4 * q + y <= 99;
    if doy == 365 {
      assert yoe + 1 == 4 * (25 * c + q + 1);
      if q < 24 {
        assert (yoe + 1) == 100 * c + (4 * q + 4) && 0 < 4 * q + 4 < 100;
      } else {
        assert yoe + 1 == 400;
      }
    }
  }

  // ------------------------------------------------------------ months

  /** The date of day `doy` of the year that starts on 1 March of `start`. */
  function FromMarch(start: int, doy: int): Date {
    var mp := (5 * doy + 2) / 153;
    Date(if mp < 10 then start else start + 1, if mp < 10 then mp + 3 else mp - 9,
         doy - (153 * mp + 2) / 5 + 1)
  }

  lemma MonthAndDay(start: int, doy: int)
    requires 0 <= doy <= 365
    requires doy == 365 ==> IsLeap(start + 1)
    ensures var d := FromMarch(start, doy);
            && ValidDate(d)
            && (d.month <= 2 <==> doy >= 306)
            && doy == if doy < 306 then DaysBeforeMonth(start, d.month) - DaysBeforeMonth(start, 3) + d.day - 1
                      else 306 + DaysBeforeMonth(start + 1, d.month) + d.day - 1
  {
    var mp := (5 * doy + 2) / 153;
    assert 0 <= mp <= 11;
    MonthStarts(start);
    MonthStarts(start + 1);
  }

  lemma MonthStarts(year: int)
    ensures var f := DaysInMonth(year, 2);
            && DaysBeforeMonth(year, 1) == 0 && DaysBeforeMonth(year, 2) == 31
            && DaysBeforeMonth(year, 3) == 31 + f && DaysBeforeMonth(year, 4) == 62 + f
            && DaysBeforeMonth(year, 5) == 92 + f && DaysBeforeMonth(year, 6) == 123 + f
            && DaysBeforeMonth(year, 7) == 153 + f && DaysBeforeMonth(year, 8) == 184 + f
            && DaysBeforeMonth(year, 9) == 215 + f && DaysBeforeMonth(year, 10) == 245 + f
            && DaysBeforeMonth(year, 11) == 276 + f && DaysBeforeMonth(year, 12) == 306 + f
  {
    assert DaysBeforeMonth(year, 3) == DaysBeforeMonth(year, 2) + DaysInMonth(year, 2);
    assert DaysBeforeMonth(year, 5) == DaysBeforeMonth(year, 4) + 30;
    assert DaysBeforeMonth(year, 7) == DaysBeforeMonth(year, 6) + 30;
    assert DaysBeforeMonth(year, 9) == DaysBeforeMonth(year, 8) + 31;
    assert DaysBeforeMonth(year, 11) == DaysBeforeMonth(year, 10) + 31;
  }

  // ------------------------------------------------------------ the theorems

  lemma LeapInEra(y: int, era: int)
    ensures IsLeap(y + 400 * era) == IsLeap(y)
    ensures LeapDays(y + 400 * era) == LeapDays(y) + 97 * era
  {
    assert y + 400 * era == 4 * (100 * era) + y && y + 400 * era == 100 * (4 * era) + y;
    ShiftDiv(y, 100 * era, 4);
    ShiftDiv(y, 4 * era, 100);
    ShiftDiv(y, era, 400);
  }

  lemma ShiftDiv(y: int, k: int, n: int)
    requires n in {4, 100, 400}
    ensures (y + n * k) / n == y / n + k
    ensures (y + n * k) % n == y % n
  {
    var q, r := y / n, y % n;
    assert y + n * k == n * (q + k) + r;
  }

  /** The program's arithmetic finds the March-based year and the day within it. */
  lemma MarchYear(era: int, doe: int) returns (start: int, doy: int)
    requires 0 <= doe < 146_097
    ensures 146_097 * era + doe == 365 * start + LeapDays(start) + doy
    ensures 0 <= doy <= 365 && (doy == 365 ==> IsLeap(start + 1))
    ensures DateInEra(era, doe) == FromMarch(start, doy)
  {
    var c, q, y, d := EraPartsExist(doe);
    DayOfYear(c, q, y, doe, d);
    var yoe := 100 * c + 4 * q + y;
    start, doy := yoe + 400 * era, d;
    DateOfParts(era, doe, c, q, y, d);
    LeapInEra(yoe + 1, era);
    LeapInEra(yoe, era);
    EraDays(era, yoe, doe, doy);
  }

  lemma DateOfParts(era: int, doe: int, c: int, q: int, y: int, doy: int)
    requires EraParts(doe, c, q, y, doy) && 0 <= doe < 146_097
    ensures DateInEra(era, doe) == FromMarch(100 * c + 4 * q + y + 400 * era, doy)
  {
    var yoe := (doe - doe / 1_460 + doe / 36_524 - doe / 146_096) / 365;
    assert yoe == 100 * c + 4 * q + y by {
      YearOfEra(doe, c, q, y, doy);
    }
    assert doe - (365 * yoe + yoe / 4 - yoe / 100) == doy by {
      DayOfYear(c, q, y, doe, doy);
    }
    MonthOfMarch(doy);
  }

  lemma MonthOfMarch(doy: int)
    requires 0 <= doy <= 365
    ensures var mp := (5 * doy + 2) / 153;
            0 <= mp <= 11 && ((if mp < 10 then mp + 3 else mp - 9) <= 2 <==> mp >= 10)
  {
  }

  lemma EraDays(era: int, yoe: int, doe: int, doy: int)
    requires 0 <= yoe < 400
    requires doe - (365 * yoe + yoe / 4 - yoe / 100) == doy
    ensures 146_097 * era + doe == 365 * (yoe + 400 * era) + (LeapDays(yoe) + 97 * era) + doy
  {
  }

  lemma StartYear(days: nat, start: int, doy: int)
    requires days + 719_468 == 365 * start + LeapDays(start) + doy
    requires 0 <= doy <= 365
    ensures start >= 1969
    ensures start == 1969 ==> doy >= 306
  {
  }

  lemma CountFromMarch(days: nat, start: int, doy: int)
    requires days + 719_468 == 365 * start + LeapDays(start) + doy
    requires 0 <= doy <= 365 && (doy == 365 ==> IsLeap(start + 1))
    ensures var d := FromMarch(start, doy);
            d.year >= 1970 && ValidDate(d) && DayNumber(d) == days
  {
    MonthAndDay(start, doy);
    StartYear(days, start, doy);
    var d := FromMarch(start, doy);
    if d.month <= 2 {
      DaysBeforeYearClosed(start + 1);
    } else {
      MarchIsDay(start);
    }
  }

  /** Days from 1970-01-01 to 1 March of `year`. */
  lemma MarchIsDay(year: int)
    requires year >= 1970
    ensures DaysBeforeYear(year) + DaysBeforeMonth(year, 3) == 365 * year + LeapDays(year) - 719_468
  {
    DaysBeforeYearClosed(year);
    LeapDaysStep(year);
    MonthStarts(year);
  }

  /** The printed date is a real date, and counting days back from it gives exactly the day printed. */
  lemma {:induction false} CivilDateCountsBack(days: nat)
    ensures var d := CivilDate(days);
            d.year >= 1970 && ValidDate(d) && DayNumber(d) == days
  {
    var z := days + 719_468;
    var era, doe := z / 146_097, z % 146_097;
    assert z == 146_097 * era + doe;
    var start, doy := MarchYear(era, doe);
    CountFromMarch(days, start, doy);
  }

  // ------------------------------------------------------------ order

  lemma {:induction false} YearsAddUp(a: int, b: int)
    requires 1970 <= a <= b
    ensures a < b ==> DaysBeforeYear(a) + DaysInYear(a) <= DaysBeforeYear(b)
    decreases b
  {
    if a < b - 1 {
      YearsAddUp(a, b - 1);
    }
  }

  lemma {:induction false} MonthsAddUp(year: int, a: int, b: int)
    requires 1 <= a <= b <= 12
    ensures a < b ==> DaysBeforeMonth(year, a) + DaysInMonth(year, a) <= DaysBeforeMonth(year, b)
    decreases b
  {
    if a < b - 1 {
      MonthsAddUp(year, a, b - 1);
    }
  }

  lemma YearHoldsItsMonths(d: Date)
    requires ValidDate(d)
    ensures 0 <= DaysBeforeMonth(d.year, d.month) + d.day - 1 < DaysInYear(d.year)
  {
    MonthStarts(d.year);
  }

  /** An earlier date has a smaller day number. */
  lemma DayNumberIsMonotone(a: Date, b: Date)
    requires a.year >= 1970 && b.year >= 1970 && ValidDate(a) && ValidDate(b)
    requires Before(a, b)
    ensures DayNumber(a) < DayNumber(b)
  {
    YearHoldsItsMonths(a);
    YearHoldsItsMonths(b);
    if a.year < b.year {
      YearsAddUp(a.year, b.year);
    } else if a.month < b.month {
      MonthsAddUp(a.year, a.month, b.month);
    }
  }

  /** Every date since 1970 is printed for exactly its own day: the program inverts the day count. */
  lemma {:induction false} CivilDateInvertsDayNumber(d: Date)
    requires d.year >= 1970 && ValidDate(d)
    ensures DayNumber(d) >= 0 && CivilDate(DayNumber(d)) == d
  {
    YearHoldsItsMonths(d);
    DaysBeforeYearClosed(d.year);
    var n := DayNumber(d);
    CivilDateCountsBack(n);
    var e := CivilDate(n);
    if Before(d, e) {
      DayNumberIsMonotone(d, e);
    } else if Before(e, d) {
      DayNumberIsMonotone(e, d);
    }
  }

  /** The day after is the next date of the calendar. */
  lemma {:induction false} ConsecutiveDays(days: nat)
    ensures ValidDate(CivilDate(days)) && CivilDate(days + 1) == NextDay(CivilDate(days))
  {
    CivilDateCountsBack(days);
    var d := CivilDate(days);
    var next := NextDay(d);
    MonthStarts(d.year);
    assert DayNumber(next) == days + 1 by {
      if d.day == DaysInMonth(d.year, d.month) && d.month == 12 {
        assert DaysBeforeYear(d.year + 1) == DaysBeforeYear(d.year) + DaysInYear(d.year);
        assert DaysBeforeMonth(d.year + 1, 1) == 0;
      }
    }
    CivilDateInvertsDayNumber(next);
  }

  /** Date order is day order, both ways. */
  lemma {:induction false} DateOrderIsDayOrder(m: nat, n: nat)
    ensures Before(CivilDate(m), CivilDate(n)) <==> m < n
  {
    CivilDateCountsBack(m);
    CivilDateCountsBack(n);
    var a, b := CivilDate(m), CivilDate(n);
    if Before(a, b) {
      DayNumberIsMonotone(a, b);
    } else if Before(b, a) {
      DayNumberIsMonotone(b, a);
    }
  }

  /** The printed minute names the time exactly, up to its seconds. */
  lemma {:induction false} UtcNamesTheMinute(unix: nat)
    ensures var t := Utc(unix);
            && 0 <= t.hour < 24 && 0 <= t.minute < 60
            && t.date.year >= 1970 && ValidDate(t.date)
            && DayNumber(t.date) * SECONDS_PER_DAY + t.hour * 3_600 + t.minute * 60 + unix % 60 == unix
  {
    CivilDateCountsBack(unix / SECONDS_PER_DAY);
    var s := unix % SECONDS_PER_DAY;
    assert unix == SECONDS_PER_DAY * (unix / SECONDS_PER_DAY) + s;
    assert s == 3_600 * (s / 3_600) + s % 3_600;
    SameSeconds(unix, unix / SECONDS_PER_DAY, s);
  }

  lemma SameSeconds(unix: nat, days: nat, s: nat)
    requires unix == SECONDS_PER_DAY * days + s && s < SECONDS_PER_DAY
    ensures s == 3_600 * (s / 3_600) + 60 * ((s % 3_600) / 60) + unix % 60
  {
    var h, r := s / 3_600, s % 3_600;
    assert s == 3_600 * h + r;
    var m := r / 60;
    assert r == 60 * m + r % 60;
    Remainder(unix, 1_440 * days + 60 * h + m, r % 60);
  }

  lemma Remainder(n: nat, k: nat, r: nat)
    requires n == 60 * k + r && r < 60
    ensures n % 60 == r
  {
  }
}
