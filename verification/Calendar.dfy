// The calendar conversion of `tools/provenance`: a closed form from a day
// number to a civil date, and the UTC timestamp built on it. Proved against
// the Gregorian leap rule of Appendix C of RFC 3339, extended to every year.
module Calendar {
  import opened Prelude

  // ---- The calendar itself ---------------------------------------------

  datatype Civil = Civil(year: int, month: int, day: int)

  predicate IsLeap(y: int) {
    y % 4 == 0 && (y % 100 != 0 || y % 400 == 0)
  }

  function DaysInMonth(y: int, m: int): int {
    if m == 2 then (if IsLeap(y) then 29 else 28)
    else if m == 4 || m == 6 || m == 9 || m == 11 then 30
    else 31
  }

  function DaysInYear(y: int): int { if IsLeap(y) then 366 else 365 }

  predicate IsDate(c: Civil) {
    1 <= c.month <= 12 && 1 <= c.day <= DaysInMonth(c.year, c.month)
  }

  /** The day after. */
  function Tomorrow(c: Civil): Civil {
    if c.day < DaysInMonth(c.year, c.month) then c.(day := c.day + 1)
    else if c.month < 12 then Civil(c.year, c.month + 1, 1)
    else Civil(c.year + 1, 1, 1)
  }

  /** Days from 0001-01-01 to the first of January of year `y`. */
  function YearStart(y: int): int {
    365 * (y - 1) + (y - 1) / 4 - (y - 1) / 100 + (y - 1) / 400
  }

  /** Days from the first of January to the first of month `m`. */
  function MonthStart(y: int, m: int): int
    requires 1 <= m
  {
    if m == 1 then 0 else MonthStart(y, m - 1) + DaysInMonth(y, m - 1)
  }

  const EPOCH := 719_162

  /** The inverse count: days from 1970-01-01 to the date. */
  function DayNumber(c: Civil): int
    requires IsDate(c)
  {
    YearStart(c.year) + MonthStart(c.year, c.month) + c.day - 1 - EPOCH
  }

  lemma FoursBelow(y: int)
    ensures y / 4 == (y - 1) / 4 + if y % 4 == 0 then 1 else 0
  {
  }

  lemma HundredsBelow(y: int)
    ensures y / 100 == (y - 1) / 100 + if y % 100 == 0 then 1 else 0
    ensures y % 100 == 0 ==> y % 4 == 0
  {
  }

  lemma FourHundredsBelow(y: int)
    ensures y / 400 == (y - 1) / 400 + if y % 400 == 0 then 1 else 0
    ensures y % 400 == 0 ==> y % 100 == 0
  {
  }

  lemma NextYearStart(y: int)
    ensures YearStart(y + 1) == YearStart(y) + DaysInYear(y)
  {
    FoursBelow(y);
    HundredsBelow(y);
    FourHundredsBelow(y);
  }

  lemma {:induction false} YearStartsRise(y1: int, y2: int)
    requires y1 < y2
    ensures YearStart(y1) + DaysInYear(y1) <= YearStart(y2)
    decreases y2 - y1
  {
    NextYearStart(y2 - 1);
    if y1 < y2 - 1 {
      YearStartsRise(y1, y2 - 1);
    }
  }

  lemma {:induction false} MonthStartsRise(y: int, m1: int, m2: int)
    requires 1 <= m1 < m2
    ensures MonthStart(y, m1) + DaysInMonth(y, m1) <= MonthStart(y, m2)
    decreases m2
  {
    if m1 < m2 - 1 {
      MonthStartsRise(y, m1, m2 - 1);
    }
  }

  lemma {:induction false} MonthStartForm(y: int, m: int)
    requires 1 <= m <= 13
    ensures MonthStart(y, m) == if m <= 2 then 31 * (m - 1) else DaysInYear(y) - 306 + (153 * (m - 3) + 2) / 5
    decreases m
  {
    if m > 1 {
      MonthStartForm(y, m - 1);
    }
  }

  /** A date lies within its year. */
  lemma DayWithinYear(c: Civil)
    requires IsDate(c)
    ensures 0 <= MonthStart(c.year, c.month) + c.day - 1 < DaysInYear(c.year)
  {
    MonthStartForm(c.year, c.month);
    MonthStartForm(c.year, 13);
    MonthStartsRise(c.year, c.month, 13);
  }

  lemma SameDaySameDate(c1: Civil, c2: Civil)
    requires IsDate(c1) && IsDate(c2) && DayNumber(c1) == DayNumber(c2)
    ensures c1 == c2
  {
    DayWithinYear(c1);
    DayWithinYear(c2);
    if c1.year < c2.year {
      YearStartsRise(c1.year, c2.year);
    } else if c2.year < c1.year {
      YearStartsRise(c2.year, c1.year);
    } else if c1.month < c2.month {
      MonthStartsRise(c1.year, c1.month, c2.month);
    } else if c2.month < c1.month {
      MonthStartsRise(c1.year, c2.month, c1.month);
    }
  }

  lemma TomorrowIsNextDay(c: Civil)
    requires IsDate(c)
    ensures IsDate(Tomorrow(c)) && DayNumber(Tomorrow(c)) == DayNumber(c) + 1
  {
    if c.month == 12 {
      NextYearStart(c.year);
      MonthStartForm(c.year, 12);
    }
  }

  // ---- The closed form -------------------------------------------------

  /** The year of the 400-year era, counted from March, of a day of the era. */
  function YearOfEra(doe: int): int {
    (doe - doe / 1460 + doe / 36524 - doe / 146096) / 365
  }

  function DayOfYear(doe: int, yoe: int): int {
    doe - (365 * yoe + yoe / 4 - yoe / 100)
  }

  function Era(z: int): int {
    TruncDiv(if z >= 0 then z else z - 146_096, 146_097)
  }

  function CivilFromDays(days: int): Civil {
    var z := days + 719_468;
    var era := Era(z);
    var doe := z - era * 146_097;
    var yoe := YearOfEra(doe);
    var y := yoe + era * 400;
    var doy := DayOfYear(doe, yoe);
    var mp := (5 * doy + 2) / 153;
    var d := doy - (153 * mp + 2) / 5 + 1;
    var m := if mp < 10 then mp + 3 else mp - 9;
    Civil(if m <= 2 then y + 1 else y, m, d)
  }

  /** The source's division truncates; shifted as it is, it floors. */
  lemma EraFloors(z: int)
    ensures 0 <= z - Era(z) * 146_097 < 146_097
  {
  }

  /** A day of the era in centuries, four-year cycles, years and days. */
  lemma EraSplits(doe: int, q: int, n: int, k: int, doy: int)
    requires 0 <= q <= 3 && 0 <= n <= 24 && 0 <= k <= 3
    requires 0 <= doy <= if k == 3 && (n < 24 || q == 3) then 365 else 364
    requires doe == 36524 * q + 1461 * n + 365 * k + doy
    ensures YearOfEra(doe) == 100 * q + 4 * n + k && DayOfYear(doe, YearOfEra(doe)) == doy
  {
    var t := 365 * k + doy;
    var last := if doe == 146_096 then 1 else 0;
    assert doe / 146_096 == last && doe / 36524 == q + last;
    assert doe / 1460 == 25 * q + n + (24 * q + n + t) / 1460;
    assert YearOfEra(doe) == (36500 * q + 1460 * n + t - (24 * q + n + t) / 1460) / 365;
    var yoe := 100 * q + 4 * n + k;
    assert yoe / 4 == 25 * q + n && yoe / 100 == q;
  }

  lemma DecomposeEra(doe: int) returns (q: int, n: int, k: int, doy: int)
    requires 0 <= doe < 146_097
    ensures 0 <= q <= 3 && 0 <= n <= 24 && 0 <= k <= 3
    ensures 0 <= doy <= if k == 3 && (n < 24 || q == 3) then 365 else 364
    ensures doe == 36524 * q + 1461 * n + 365 * k + doy
  {
    q := Min(doe / 36524, 3);
    var r := doe - 36524 * q;
    n := r / 1461;
    var t := r - 1461 * n;
    k := Min(t / 365, 3);
    doy := t - 365 * k;
  }

  /** Day `doy` of the year that starts in March, as a month and a day of it. */
  lemma MarchDay(y: int, doy: int)
    requires 0 <= doy <= 364 + (if IsLeap(y + 1) then 1 else 0)
    ensures var mp := (5 * doy + 2) / 153;
            var d := doy - (153 * mp + 2) / 5 + 1;
            var m := if mp < 10 then mp + 3 else mp - 9;
            var c := Civil(if m <= 2 then y + 1 else y, m, d);
            IsDate(c) && DayNumber(c) == YearStart(y + 1) - 306 + doy - EPOCH
  {
    var mp := (5 * doy + 2) / 153;
    var m := if mp < 10 then mp + 3 else mp - 9;
    if m <= 2 {
      MonthStartForm(y + 1, m);
    } else {
      MonthStartForm(y, m);
      NextYearStart(y);
    }
  }

  lemma LeapWithinEra(q: int, n: int, k: int)
    requires 0 <= q <= 3 && 0 <= n <= 24 && 0 <= k <= 3
    ensures IsLeap(100 * q + 4 * n + k + 1) <==> k == 3 && (n < 24 || q == 3)
  {
    var y := 100 * q + 4 * n + k + 1;
    assert y % 4 == (k + 1) % 4;
    if k == 3 {
      assert y % 100 == if n == 24 then 0 else 4 * n + 4;
    }
  }

  /** A day of the era falls in year `YearOfEra`, as long as that year is. */
  lemma DayOfEra(doe: int)
    requires 0 <= doe < 146_097
    ensures var yoe := YearOfEra(doe);
            0 <= yoe < 400 && 0 <= DayOfYear(doe, yoe) <= 364 + if IsLeap(yoe + 1) then 1 else 0
  {
    hide YearOfEra, DayOfYear, IsLeap;
    var q, n, k, doy := DecomposeEra(doe);
    EraSplits(doe, q, n, k, doy);
    LeapWithinEra(q, n, k);
  }

  lemma MarchYearStart(era: int, yoe: int)
    requires 0 <= yoe < 400
    ensures YearStart(400 * era + yoe + 1) == 146_097 * era + 365 * yoe + yoe / 4 - yoe / 100
    ensures IsLeap(400 * era + yoe + 1) <==> IsLeap(yoe + 1)
  {
    hide IsLeap;
    var y, r := 400 * era + yoe, yoe + 1;
    assert y / 400 == era && y / 100 == 4 * era + yoe / 100 && y / 4 == 100 * era + yoe / 4;
    LeapRepeats(era, r);
  }

  lemma LeapRepeats(era: int, r: int)
    ensures IsLeap(400 * era + r) <==> IsLeap(r)
  {
    var y := 400 * era + r;
    assert y / 400 == era + r / 400 && y / 100 == 4 * era + r / 100 && y / 4 == 100 * era + r / 4;
  }

  /** Every integer day is a calendar date, and counting back gives the day. */
  lemma DaysAreDates(z: int)
    ensures IsDate(CivilFromDays(z)) && DayNumber(CivilFromDays(z)) == z
  {
    hide YearOfEra, IsLeap, YearStart, DayNumber, Era, IsDate;
    var era := Era(z + 719_468);
    EraFloors(z + 719_468);
    var doe := z + 719_468 - era * 146_097;
    MarchDate(era, doe);
  }

  /** Day `doe` of an era, as the day of a March year. */
  lemma MarchDate(era: int, doe: int)
    requires 0 <= doe < 146_097
    ensures var yoe := YearOfEra(doe);
            var y, doy := yoe + era * 400, DayOfYear(doe, yoe);
            var mp := (5 * doy + 2) / 153;
            var d := doy - (153 * mp + 2) / 5 + 1;
            var m := if mp < 10 then mp + 3 else mp - 9;
            var c := Civil(if m <= 2 then y + 1 else y, m, d);
            IsDate(c) && DayNumber(c) == 146_097 * era + doe - 719_468
  {
    hide YearOfEra, DayOfYear, IsLeap, YearStart, IsDate, DayNumber;
    DayOfEra(doe);
    var yoe := YearOfEra(doe);
    MarchOffset(era, doe, yoe);
    MarchDay(400 * era + yoe, DayOfYear(doe, yoe));
  }

  lemma MarchOffset(era: int, doe: int, yoe: int)
    requires 0 <= yoe < 400
    ensures YearStart(400 * era + yoe + 1) - 306 + DayOfYear(doe, yoe) - EPOCH == 146_097 * era + doe - 719_468
    ensures IsLeap(400 * era + yoe + 1) <==> IsLeap(yoe + 1)
  {
    hide YearStart, IsLeap;
    MarchYearStart(era, yoe);
  }

  /** The conversion is a bijection between the integers and the calendar dates. */
  lemma DatesAreDays(c: Civil)
    requires IsDate(c)
    ensures CivilFromDays(DayNumber(c)) == c
    ensures forall z :: CivilFromDays(z) == c <==> z == DayNumber(c)
  {
    hide CivilFromDays;
    forall z
      ensures CivilFromDays(z) == c <==> z == DayNumber(c)
    {
      DaysAreDates(z);
      if z == DayNumber(c) {
        SameDaySameDate(CivilFromDays(z), c);
      }
    }
  }

  /** Day 0 is 1970-01-01, and each day is followed by its calendar successor. */
  lemma DaysFollowTheCalendar(z: int)
    ensures CivilFromDays(0) == Civil(1970, 1, 1)
    ensures CivilFromDays(z + 1) == Tomorrow(CivilFromDays(z))
  {
    hide CivilFromDays;
    DatesAreDays(Civil(1970, 1, 1));
    DaysAreDates(z);
    TomorrowIsNextDay(CivilFromDays(z));
    DatesAreDays(Tomorrow(CivilFromDays(z)));
  }

  const I64_MAX := 0x7FFF_FFFF_FFFF_FFFF

  predicate IsI64(x: int) { -I64_MAX - 1 <= x <= I64_MAX }

  /**
   * Only the first addition can leave the 64 bits. After it no signed sum or product
   * overflows, no unsigned difference is negative, and every cast is lossless.
   */
  lemma MachineWidthSuffices(days: int)
    requires -I64_MAX - 1 <= days <= I64_MAX - 719_468
    ensures var z := days + 719_468;
            var era := Era(z);
            var doe := z - era * 146_097;
            var yoe := YearOfEra(doe);
            var doy := DayOfYear(doe, yoe);
            var mp := (5 * doy + 2) / 153;
            var c := CivilFromDays(days);
            && IsI64(z) && IsI64(z - 146_096) && IsI64(era * 146_097) && 0 <= doe < 146_097
            && 0 <= doe - doe / 1460 && 0 <= doe - doe / 1460 + doe / 36524 - doe / 146096
            && 0 <= yoe < 400 && IsI64(era * 400) && IsI64(yoe + era * 400) && IsI64(yoe + era * 400 + 1)
            && 0 <= 365 * yoe + yoe / 4 - yoe / 100 <= doe
            && 0 <= mp <= 11 && 0 <= doy - (153 * mp + 2) / 5
            && IsI64(c.year) && 1 <= c.month <= 12 && 1 <= c.day <= 31
  {
    hide YearOfEra, DayOfYear, Era, IsDate, DayNumber;
    var z := days + 719_468;
    EraFloors(z);
    var doe := z - Era(z) * 146_097;
    DayOfEra(doe);
    UnsignedStepsFit(doe, YearOfEra(doe), DayOfYear(doe, YearOfEra(doe)));
    DateInRange(days);
  }

  lemma DateInRange(days: int)
    ensures var c := CivilFromDays(days); 1 <= c.month <= 12 && 1 <= c.day <= 31
  {
    hide CivilFromDays;
    DaysAreDates(days);
  }

  lemma UnsignedStepsFit(doe: int, yoe: int, doy: int)
    requires 0 <= doe < 146_097 && 0 <= yoe < 400 && doy == DayOfYear(doe, yoe) && 0 <= doy <= 365
    ensures 0 <= doe - doe / 1460 && 0 <= doe - doe / 1460 + doe / 36524 - doe / 146096
    ensures 0 <= 365 * yoe + yoe / 4 - yoe / 100 <= doe
    ensures var mp := (5 * doy + 2) / 153; 0 <= mp <= 11 && 0 <= doy - (153 * mp + 2) / 5
  {
  }

  // ---- The timestamp ---------------------------------------------------

  datatype Stamp = Stamp(date: Civil, hour: int, minute: int, second: int)

  predicate IsStamp(t: Stamp) {
    IsDate(t.date) && 0 <= t.hour < 24 && 0 <= t.minute < 60 && 0 <= t.second < 60
  }

  function StampOf(secs: U64): Stamp {
    var sod := secs % 86_400;
    Stamp(CivilFromDays(secs / 86_400), sod / 3600, sod % 3600 / 60, sod % 60)
  }

  /** The second a stamp denotes. */
  function SecondOf(t: Stamp): int
    requires IsStamp(t)
  {
    86_400 * DayNumber(t.date) + 3600 * t.hour + 60 * t.minute + t.second
  }

  lemma StampDenotesItsSecond(secs: U64)
    ensures IsStamp(StampOf(secs)) && SecondOf(StampOf(secs)) == secs && StampOf(secs).date.year >= 1970
  {
    var days, sod := secs / 86_400, secs % 86_400;
    hide CivilFromDays, DayNumber;
    DaysAreDates(days);
    EpochYear(CivilFromDays(days));
    SecondsSplit(secs);
  }

  lemma SecondsSplit(secs: nat)
    ensures var sod := secs % 86_400;
            && secs == 86_400 * (secs / 86_400) + 3600 * (sod / 3600) + 60 * (sod % 3600 / 60) + sod % 60
            && sod / 3600 < 24 && sod % 3600 / 60 < 60
  {
    var sod := secs % 86_400;
    assert sod % 3600 == 60 * (sod % 3600 / 60) + sod % 60;
  }

  /** Years in order are days in order. */
  lemma YearsAreOrdered(c: Civil, y: int)
    requires IsDate(c)
    ensures c.year < y <==> DayNumber(c) < YearStart(y) - EPOCH
  {
    DayWithinYear(c);
    if c.year < y {
      YearStartsRise(c.year, y);
    } else if y < c.year {
      YearStartsRise(y, c.year);
    }
  }

  lemma EpochYear(c: Civil)
    requires IsDate(c) && DayNumber(c) >= 0
    ensures c.year >= 1970
  {
    YearsAreOrdered(c, 1970);
  }

  const DIGITS := "0123456789"

  /** `n` in decimal, at least `width` digits. */
  function Decimal(n: nat, width: nat): (s: string)
    ensures |s| >= width
    decreases n + width
  {
    if n == 0 && width == 0 then ""
    else Decimal(n / 10, if width == 0 then 0 else width - 1) + [DIGITS[n % 10]]
  }

  function DigitValue(c: char): int {
    if '0' <= c <= '9' then c as int - '0' as int else 0
  }

  function Value(s: string): int {
    if s == "" then 0 else 10 * Value(s[..|s| - 1]) + DigitValue(s[|s| - 1])
  }

  lemma {:induction false} DecimalReadsBack(n: nat, width: nat)
    ensures Value(Decimal(n, width)) == n
    decreases n + width
  {
    if n != 0 || width != 0 {
      var w := if width == 0 then 0 else width - 1;
      DecimalReadsBack(n / 10, w);
      assert Decimal(n, width)[..|Decimal(n, width)| - 1] == Decimal(n / 10, w);
      assert DigitValue(DIGITS[n % 10]) == n % 10;
    }
  }

  lemma TwoDigits(n: nat)
    requires n < 100
    ensures |Decimal(n, 2)| == 2
  {
    assert |Decimal(n / 10 / 10, 0)| == 0;
  }

  lemma FourDigitsIff(n: nat)
    ensures |Decimal(n, 4)| == 4 <==> n < 10_000
  {
    var m := n / 10 / 10 / 10 / 10;
    assert |Decimal(n, 4)| == |Decimal(m, 0)| + 4 by {
      assert |Decimal(n / 10, 3)| == |Decimal(n, 4)| - 1;
      assert |Decimal(n / 10 / 10, 2)| == |Decimal(n / 10, 3)| - 1;
    }
    assert m == 0 <==> n < 10_000;
    assert |Decimal(m, 0)| == 0 <==> m == 0;
  }

  function FormatUnix(secs: U64): string {
    var t := StampOf(secs);
    StampDenotesItsSecond(secs);
    Layout(Decimal(t.date.year, 4), Decimal(t.date.month, 2), Decimal(t.date.day, 2),
           Decimal(t.hour, 2), Decimal(t.minute, 2), Decimal(t.second, 2))
  }

  /** Reads the fields back, from the fixed places counted from the end. */
  function ReadStamp(s: string): Stamp
    requires |s| >= 16
  {
    var n := |s|;
    Stamp(Civil(Value(s[..n - 16]), Value(s[n - 15..n - 13]), Value(s[n - 12..n - 10])),
          Value(s[n - 9..n - 7]), Value(s[n - 6..n - 4]), Value(s[n - 3..n - 1]))
  }

  /** The text determines the second. */
  lemma TextDenotesItsSecond(secs: U64)
    ensures |FormatUnix(secs)| >= 20
    ensures ReadStamp(FormatUnix(secs)) == StampOf(secs)
    ensures IsStamp(ReadStamp(FormatUnix(secs))) && SecondOf(ReadStamp(FormatUnix(secs))) == secs
  {
    hide StampOf, SecondOf, Decimal, Value;
    StampDenotesItsSecond(secs);
    var t := StampOf(secs);
    FieldsReadBack(t, FormatUnix(secs));
  }

  function Layout(year: string, month: string, day: string, hour: string, minute: string, second: string): string {
    year + "-" + month + "-" + day + "T" + hour + ":" + minute + ":" + second + "Z"
  }

  lemma Middle(p: string, x: string, q: string)
    ensures (p + (x + q))[|p|..|p| + |x|] == x
  {
  }

  lemma LayoutReadBack(y: string, mo: string, d: string, h: string, mi: string, sec: string)
    requires |mo| == |d| == |h| == |mi| == |sec| == 2
    ensures var s, n := Layout(y, mo, d, h, mi, sec), |y| + 16;
            && |s| == n && s[..n - 16] == y && s[n - 15..n - 13] == mo && s[n - 12..n - 10] == d
            && s[n - 9..n - 7] == h && s[n - 6..n - 4] == mi && s[n - 3..n - 1] == sec
  {
    var s := Layout(y, mo, d, h, mi, sec);
    var q5 := sec + "Z";
    var q4 := mi + (":" + q5);
    var q3 := h + (":" + q4);
    var q2 := d + ("T" + q3);
    var q1 := mo + ("-" + q2);
    assert s == y + ("-" + q1);
    var p1 := y + "-";
    var p2 := p1 + mo + "-";
    var p3 := p2 + d + "T";
    var p4 := p3 + h + ":";
    var p5 := p4 + mi + ":";
    assert s == p1 + q1;
    assert s == p2 + q2;
    assert s == p3 + q3;
    assert s == p4 + q4;
    assert s == p5 + q5;
    Middle(p1, mo, "-" + q2);
    Middle(p2, d, "T" + q3);
    Middle(p3, h, ":" + q4);
    Middle(p4, mi, ":" + q5);
    Middle(p5, sec, "Z");
  }

  lemma TwoDigitsReadBack(n: nat)
    requires n < 100
    ensures |Decimal(n, 2)| == 2 && Value(Decimal(n, 2)) == n
  {
    TwoDigits(n);
    DecimalReadsBack(n, 2);
  }

  lemma FieldsReadBack(t: Stamp, s: string)
    requires IsStamp(t) && t.date.year >= 0
    requires s == Layout(Decimal(t.date.year, 4), Decimal(t.date.month, 2), Decimal(t.date.day, 2),
                         Decimal(t.hour, 2), Decimal(t.minute, 2), Decimal(t.second, 2))
    ensures |s| == |Decimal(t.date.year, 4)| + 16 && ReadStamp(s) == t
  {
    hide Decimal, Value, Layout;
    TwoDigitsReadBack(t.date.month);
    TwoDigitsReadBack(t.date.day);
    TwoDigitsReadBack(t.hour);
    TwoDigitsReadBack(t.minute);
    TwoDigitsReadBack(t.second);
    DecimalReadsBack(t.date.year, 4);
    LayoutReadBack(Decimal(t.date.year, 4), Decimal(t.date.month, 2), Decimal(t.date.day, 2),
                   Decimal(t.hour, 2), Decimal(t.minute, 2), Decimal(t.second, 2));
  }

  /**
   * RFC 3339 has a four-digit year and so a timestamp of this form has twenty
   * characters; that holds exactly before the year 10000.
   */
  lemma TextIsRfc3339Iff(secs: U64)
    ensures |FormatUnix(secs)| == 20 <==> secs < 253_402_300_800
  {
    hide CivilFromDays, Decimal, Value, DayNumber;
    StampDenotesItsSecond(secs);
    var t := StampOf(secs);
    FieldsReadBack(t, FormatUnix(secs));
    FourDigitsIff(t.date.year);
    DaysAreDates(secs / 86_400);
    YearsAreOrdered(t.date, 10_000);
    assert YearStart(10_000) - EPOCH == 2_932_897;
  }
}
