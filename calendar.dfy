/** Proleptic Gregorian dates and `DateTime` ticks, with the two text layouts the app uses:
    the exact `yyyyMMdd` layout of the daily-price dates, and the `yyyy-MM-dd HH:mm:ss` layout
    in which token expiry times are stored. A DateTime is its tick count: 100-nanosecond
    intervals since 0001-01-01 00:00:00, up to 9999-12-31 23:59:59.9999999. */
module Calendar {
  import opened Wrappers
  import opened Text

  const TicksPerSecond: int := 10_000_000
  const SecondsPerDay: int := 86400
  /** Days from 0001-01-01 to 10000-01-01. */
  const DaysTo10000: int := 3652059
  const MaxTicks: int := DaysTo10000 * SecondsPerDay * TicksPerSecond - 1

  /** A DateTime value, as its tick count. */
  type Ticks = t: int | 0 <= t <= MaxTicks

  predicate IsLeapYear(y: int)
  {
    y % 4 == 0 && (y % 100 != 0 || y % 400 == 0)
  }

  function YearLength(y: int): int
  {
    if IsLeapYear(y) then 366 else 365
  }

  function DaysInMonth(y: int, m: int): int
    requires 1 <= m <= 12
  {
    if m == 2 then (if IsLeapYear(y) then 29 else 28)
    else if m == 4 || m == 6 || m == 9 || m == 11 then 30
    else 31
  }

  datatype Date = Date(year: int, month: int, day: int)

  /** A calendar date DateTime can represent. */
  predicate ValidDate(d: Date)
  {
    1 <= d.year <= 9999 && 1 <= d.month <= 12 && 1 <= d.day <= DaysInMonth(d.year, d.month)
  }

  /** Chronological order, the order in which DateTime compares two midnights. */
  predicate Before(a: Date, b: Date)
  {
    a.year < b.year
    || (a.year == b.year && (a.month < b.month || (a.month == b.month && a.day < b.day)))
  }

  // ---------------------------------------------------------------------------------------
  // yyyyMMdd

  function FormatDate(d: Date): (s: string)
    requires ValidDate(d)
    ensures |s| == 8
  {
    FormatDigits(d.year, 4) + FormatDigits(d.month, 2) + FormatDigits(d.day, 2)
  }

  /** `DateTime.TryParseExact(s, "yyyyMMdd", ...)` with no styles: exactly eight ASCII digits
      (four for the year, two each for month and day) naming a valid Gregorian date. */
  function ParseDateExact(s: string): (r: Option<Date>)
    ensures r.Some? ==> ValidDate(r.value) && |s| == 8 && IsDigits(s)
  {
    if |s| == 8 && IsDigits(s) then
      assert IsDigits(s[..4]) && IsDigits(s[4..6]) && IsDigits(s[6..]);
      var d := Date(DigitsValue(s[..4]), DigitsValue(s[4..6]), DigitsValue(s[6..]));
      if ValidDate(d) then Some(d) else None
    else None
  }

  lemma {:induction false} ParseFormatDate(d: Date)
    requires ValidDate(d)
    ensures ParseDateExact(FormatDate(d)) == Some(d)
  {
    var y, m, dd := FormatDigits(d.year, 4), FormatDigits(d.month, 2), FormatDigits(d.day, 2);
    var s := FormatDate(d);
    assert s[..4] == y && s[4..6] == m && s[6..] == dd;
    assert Pow10(2) == 100 && Pow10(4) == 10000;
    DigitsValueOfFormat(d.year, 4);
    DigitsValueOfFormat(d.month, 2);
    DigitsValueOfFormat(d.day, 2);
  }

  lemma {:induction false} FormatParseDate(s: string)
    requires ParseDateExact(s).Some?
    ensures FormatDate(ParseDateExact(s).value) == s
  {
    assert IsDigits(s[..4]) && IsDigits(s[4..6]) && IsDigits(s[6..]);
    var d := ParseDateExact(s).value;
    assert d == Date(DigitsValue(s[..4]), DigitsValue(s[4..6]), DigitsValue(s[6..]));
    FormatOfDigitsValue(s[..4]);
    FormatOfDigitsValue(s[4..6]);
    FormatOfDigitsValue(s[6..]);
    FormatDateOfGroups(s, d);
  }

  /** Eight characters whose three groups are `d`'s year, month and day are `d`'s text. */
  lemma FormatDateOfGroups(s: string, d: Date)
    requires ValidDate(d) && |s| == 8
    requires FormatDigits(d.year, 4) == s[..4] && FormatDigits(d.month, 2) == s[4..6]
    requires FormatDigits(d.day, 2) == s[6..]
    ensures FormatDate(d) == s
  {
    assert s == s[..4] + s[4..6] + s[6..];
  }

  // ---------------------------------------------------------------------------------------
  // Day numbers: days since 0001-01-01

  function DaysBeforeYear(y: int): int
    requires y >= 1
  {
    var p := y - 1;
    p * 365 + p / 4 - p / 100 + p / 400
  }

  lemma YearStep(y: int)
    requires y >= 1
    ensures DaysBeforeYear(y + 1) == DaysBeforeYear(y) + YearLength(y)
  {
    StepOver4(y);
    StepOver100(y);
    StepOver400(y);
    if y % 100 == 0 {
      CenturyIsLeapCandidate(y);
    }
    if y % 400 == 0 {
      QuadricentennialIsCentury(y);
    }
  }

  lemma StepOver4(y: int)
    ensures y / 4 - (y - 1) / 4 == if y % 4 == 0 then 1 else 0
  {
  }

  lemma StepOver100(y: int)
    ensures y / 100 - (y - 1) / 100 == if y % 100 == 0 then 1 else 0
  {
  }

  lemma StepOver400(y: int)
    ensures y / 400 - (y - 1) / 400 == if y % 400 == 0 then 1 else 0
  {
  }

  lemma CenturyIsLeapCandidate(y: int)
    requires y % 100 == 0
    ensures y % 4 == 0
  {
    var q := y / 100;
    assert y == 4 * (25 * q);
  }

  lemma QuadricentennialIsCentury(y: int)
    requires y % 400 == 0
    ensures y % 100 == 0
  {
    var q := y / 400;
    assert y == 100 * (4 * q);
  }

  lemma {:induction false} DaysBeforeYearMonotone(a: int, b: int)
    requires 1 <= a <= b
    ensures DaysBeforeYear(a) <= DaysBeforeYear(b)
    ensures a < b ==> DaysBeforeYear(a + 1) <= DaysBeforeYear(b)
    decreases b - a
  {
    if a < b {
      YearStep(a);
      DaysBeforeYearMonotone(a + 1, b);
    }
  }

  /** Days of year `y` before the first of month `m` (m = 13 gives the year's length). */
  function DaysBeforeMonth(y: int, m: int): int
    requires 1 <= m <= 13
  {
    (if m == 1 then 0 else if m == 2 then 31 else if m == 3 then 59 else if m == 4 then 90
     else if m == 5 then 120 else if m == 6 then 151 else if m == 7 then 181
     else if m == 8 then 212 else if m == 9 then 243 else if m == 10 then 273
     else if m == 11 then 304 else if m == 12 then 334 else 365)
    + (if m > 2 && IsLeapYear(y) then 1 else 0)
  }

  lemma MonthStep(y: int, m: int)
    requires 1 <= m <= 12
    ensures DaysBeforeMonth(y, m + 1) == DaysBeforeMonth(y, m) + DaysInMonth(y, m)
    ensures DaysBeforeMonth(y, 13) == YearLength(y)
  {
  }

  lemma {:induction false} DaysBeforeMonthMonotone(y: int, a: int, b: int)
    requires 1 <= a < b <= 13
    ensures DaysBeforeMonth(y, a + 1) <= DaysBeforeMonth(y, b)
    decreases b - a
  {
    if a + 1 < b {
      MonthStep(y, a + 1);
      DaysBeforeMonthMonotone(y, a + 1, b);
    }
  }

  function DayNumber(d: Date): int
    requires ValidDate(d)
  {
    DaysBeforeYear(d.year) + DaysBeforeMonth(d.year, d.month) + d.day - 1
  }

  lemma DayNumberWithinYear(d: Date)
    requires ValidDate(d)
    ensures DaysBeforeYear(d.year) <= DayNumber(d) < DaysBeforeYear(d.year + 1)
    ensures 0 <= DayNumber(d) < DaysTo10000
  {
    MonthStep(d.year, d.month);
    YearStep(d.year);
    DaysBeforeMonthMonotone(d.year, d.month, 13);
    DaysBeforeYearMonotone(d.year + 1, 10000);
  }

  /** The year, searched upward from `y`, whose days contain day number `n`. */
  function YearOf(n: int, y: int): (r: int)
    requires 1 <= y <= 9999 && DaysBeforeYear(y) <= n < DaysTo10000
    ensures y <= r <= 9999 && DaysBeforeYear(r) <= n < DaysBeforeYear(r + 1)
    decreases 9999 - y
  {
    if n < DaysBeforeYear(y + 1) then y else YearOf(n, y + 1)
  }

  /** The month of year `y`, searched upward from `m`, that contains day-of-year `r`. */
  function MonthOf(y: int, r: int, m: int): (res: int)
    requires 1 <= m <= 12 && DaysBeforeMonth(y, m) <= r < DaysBeforeMonth(y, 13)
    ensures m <= res <= 12 && DaysBeforeMonth(y, res) <= r < DaysBeforeMonth(y, res + 1)
    decreases 12 - m
  {
    if r < DaysBeforeMonth(y, m + 1) then m else MonthOf(y, r, m + 1)
  }

  /** The date of day number `n`; it is valid and numbered `n`. */
  function DateOfDayNumber(n: int): (d: Date)
    requires 0 <= n < DaysTo10000
    ensures ValidDate(d) && DayNumber(d) == n
  {
    var y := YearOf(n, 1);
    YearStep(y);
    MonthStep(y, 1);
    var r := n - DaysBeforeYear(y);
    var m := MonthOf(y, r, 1);
    MonthStep(y, m);
    Date(y, m, r - DaysBeforeMonth(y, m) + 1)
  }

  lemma DateOfDayNumberOfDate(d: Date)
    requires ValidDate(d)
    ensures DayNumber(d) < DaysTo10000 && DateOfDayNumber(DayNumber(d)) == d
  {
    DayNumberWithinYear(d);
    var e := DateOfDayNumber(DayNumber(d));
    DayNumberInjective(d, e);
  }

  /** Two valid dates with the same day number are the same date. */
  lemma DayNumberInjective(d: Date, e: Date)
    requires ValidDate(d) && ValidDate(e) && DayNumber(d) == DayNumber(e)
    ensures d == e
  {
    SameDayNumberSameYear(d, e);
    SameDayNumberSameMonth(d, e);
  }

  lemma SameDayNumberSameYear(d: Date, e: Date)
    requires ValidDate(d) && ValidDate(e) && DayNumber(d) == DayNumber(e)
    ensures d.year == e.year
  {
    DayNumberWithinYear(d);
    DayNumberWithinYear(e);
    if e.year < d.year {
      DaysBeforeYearMonotone(e.year, d.year);
    } else if d.year < e.year {
      DaysBeforeYearMonotone(d.year, e.year);
    }
  }

  lemma SameDayNumberSameMonth(d: Date, e: Date)
    requires ValidDate(d) && ValidDate(e) && d.year == e.year && DayNumber(d) == DayNumber(e)
    ensures d.month == e.month
  {
    MonthStep(d.year, d.month);
    MonthStep(d.year, e.month);
    if e.month < d.month {
      DaysBeforeMonthMonotone(d.year, e.month, d.month);
    } else if d.month < e.month {
      DaysBeforeMonthMonotone(d.year, d.month, e.month);
    }
  }

  // ---------------------------------------------------------------------------------------
  // yyyy-MM-dd HH:mm:ss

  /** The fields a DateTime shows to whole seconds. */
  datatype Fields = Fields(date: Date, hour: int, minute: int, second: int)

  predicate ValidFields(f: Fields)
  {
    ValidDate(f.date) && 0 <= f.hour < 24 && 0 <= f.minute < 60 && 0 <= f.second < 60
  }

  /** The fields of a whole-second count since 0001-01-01 00:00:00. */
  function FieldsOfSeconds(secs: int): (f: Fields)
    requires 0 <= secs < DaysTo10000 * SecondsPerDay
    ensures ValidFields(f)
  {
    var sod := secs % SecondsPerDay;
    Fields(DateOfDayNumber(secs / SecondsPerDay), sod / 3600, sod % 3600 / 60, sod % 60)
  }

  function FieldsOf(t: Ticks): (f: Fields)
    ensures ValidFields(f)
  {
    FieldsOfSeconds(t / TicksPerSecond)
  }

  /** The whole seconds from 0001-01-01 00:00:00 to the moment the fields name. */
  function SecondsOf(f: Fields): (secs: int)
    requires ValidFields(f)
    ensures 0 <= secs < DaysTo10000 * SecondsPerDay
  {
    DayNumberWithinYear(f.date);
    DayNumber(f.date) * SecondsPerDay + f.hour * 3600 + f.minute * 60 + f.second
  }

  /** The DateTime at the start of the second the fields name. */
  function TicksOf(f: Fields): (t: Ticks)
    requires ValidFields(f)
  {
    SecondsOf(f) * TicksPerSecond
  }

  lemma SecondsOfFieldsOfSeconds(secs: int)
    requires 0 <= secs < DaysTo10000 * SecondsPerDay
    ensures SecondsOf(FieldsOfSeconds(secs)) == secs
  {
    var sod := secs % SecondsPerDay;
    assert sod == sod / 3600 * 3600 + sod % 3600 / 60 * 60 + sod % 60;
    assert secs == secs / SecondsPerDay * SecondsPerDay + sod;
  }

  lemma FieldsOfSecondsOf(f: Fields)
    requires ValidFields(f)
    ensures FieldsOfSeconds(SecondsOf(f)) == f
  {
    var n := DayNumber(f.date);
    DateOfDayNumberOfDate(f.date);
    SecondsSplit(n, f.hour, f.minute, f.second);
    var secs := SecondsOf(f);
    assert secs == n * SecondsPerDay + f.hour * 3600 + f.minute * 60 + f.second;
    var day, sod := secs / SecondsPerDay, secs % SecondsPerDay;
    assert day == n;
    assert sod / 3600 == f.hour && sod % 3600 / 60 == f.minute && sod % 60 == f.second;
  }

  lemma TicksOfFieldsOf(t: Ticks)
    ensures TicksOf(FieldsOf(t)) == t - t % TicksPerSecond
  {
    SecondsOfFieldsOfSeconds(t / TicksPerSecond);
  }

  lemma FieldsOfTicksOf(f: Fields)
    requires ValidFields(f)
    ensures FieldsOf(TicksOf(f)) == f
  {
    SecondsOfTicks(SecondsOf(f));
    FieldsOfSecondsOf(f);
  }

  /** A second count splits back into its day, hour, minute and second. */
  lemma SecondsSplit(n: int, h: int, m: int, s: int)
    requires 0 <= h < 24 && 0 <= m < 60 && 0 <= s < 60
    ensures var secs := n * SecondsPerDay + h * 3600 + m * 60 + s;
      secs / SecondsPerDay == n && secs % SecondsPerDay / 3600 == h
      && secs % SecondsPerDay % 3600 / 60 == m && secs % SecondsPerDay % 60 == s
  {
    var rest := m * 60 + s;
    var sod := h * 3600 + rest;
    assert n * SecondsPerDay + h * 3600 + m * 60 + s == n * SecondsPerDay + sod;
    DaysOfSeconds(n, sod);
    HoursOfDay(h, rest);
    MinutesOfHour(m, s);
    assert sod % 60 == s by {
      assert sod == (h * 60 + m) * 60 + s;
    }
  }

  lemma SecondsOfTicks(secs: int)
    ensures (secs * TicksPerSecond) / TicksPerSecond == secs
  {
  }

  lemma DaysOfSeconds(n: int, sod: int)
    requires 0 <= sod < SecondsPerDay
    ensures (n * SecondsPerDay + sod) / SecondsPerDay == n && (n * SecondsPerDay + sod) % SecondsPerDay == sod
  {
  }

  lemma HoursOfDay(h: int, rest: int)
    requires 0 <= rest < 3600
    ensures (h * 3600 + rest) / 3600 == h && (h * 3600 + rest) % 3600 == rest
  {
  }

  lemma MinutesOfHour(m: int, sec: int)
    requires 0 <= sec < 60
    ensures (m * 60 + sec) / 60 == m && (m * 60 + sec) % 60 == sec
  {
  }

  function Render(f: Fields): (s: string)
    requires ValidFields(f)
    ensures |s| == 19
  {
    FormatDigits(f.date.year, 4) + "-" + FormatDigits(f.date.month, 2) + "-"
    + FormatDigits(f.date.day, 2) + " " + FormatDigits(f.hour, 2) + ":"
    + FormatDigits(f.minute, 2) + ":" + FormatDigits(f.second, 2)
  }

  /** Reads the exact `yyyy-MM-dd HH:mm:ss` layout back into fields, rejecting anything
      that is not a valid date and time of day. */
  function ParseFields(s: string): (r: Option<Fields>)
    ensures r.Some? ==> ValidFields(r.value)
  {
    if |s| == 19 && s[4] == '-' && s[7] == '-' && s[10] == ' ' && s[13] == ':' && s[16] == ':'
       && IsDigits(s[0..4]) && IsDigits(s[5..7]) && IsDigits(s[8..10])
       && IsDigits(s[11..13]) && IsDigits(s[14..16]) && IsDigits(s[17..19])
    then
      var f := Fields(Date(DigitsValue(s[0..4]), DigitsValue(s[5..7]), DigitsValue(s[8..10])),
                      DigitsValue(s[11..13]), DigitsValue(s[14..16]), DigitsValue(s[17..19]));
      if ValidFields(f) then Some(f) else None
    else None
  }

  lemma ParseRender(f: Fields)
    requires ValidFields(f)
    ensures ParseFields(Render(f)) == Some(f)
  {
    RenderSlices(f);
    FieldDigits(f);
    ParseLaidOut(Render(f), f);
  }

  /** Each field fits its digit group, so the group reads back as the field. */
  lemma FieldDigits(f: Fields)
    requires ValidFields(f)
    ensures DigitsValue(FormatDigits(f.date.year, 4)) == f.date.year
    ensures DigitsValue(FormatDigits(f.date.month, 2)) == f.date.month
    ensures DigitsValue(FormatDigits(f.date.day, 2)) == f.date.day
    ensures DigitsValue(FormatDigits(f.hour, 2)) == f.hour
    ensures DigitsValue(FormatDigits(f.minute, 2)) == f.minute
    ensures DigitsValue(FormatDigits(f.second, 2)) == f.second
  {
    assert Pow10(2) == 100 && Pow10(4) == 10000;
    DigitsValueOfFormat(f.date.year, 4);
    DigitsValueOfFormat(f.date.month, 2);
    DigitsValueOfFormat(f.date.day, 2);
    DigitsValueOfFormat(f.hour, 2);
    DigitsValueOfFormat(f.minute, 2);
    DigitsValueOfFormat(f.second, 2);
  }

  /** Text with the separators in place and the six digit groups holding `f`'s fields is read
      back as `f`. */
  lemma ParseLaidOut(s: string, f: Fields)
    requires ValidFields(f) && |s| == 19
    requires s[4] == '-' && s[7] == '-' && s[10] == ' ' && s[13] == ':' && s[16] == ':'
    requires IsDigits(s[0..4]) && IsDigits(s[5..7]) && IsDigits(s[8..10])
    requires IsDigits(s[11..13]) && IsDigits(s[14..16]) && IsDigits(s[17..19])
    requires DigitsValue(s[0..4]) == f.date.year && DigitsValue(s[5..7]) == f.date.month
    requires DigitsValue(s[8..10]) == f.date.day && DigitsValue(s[11..13]) == f.hour
    requires DigitsValue(s[14..16]) == f.minute && DigitsValue(s[17..19]) == f.second
    ensures ParseFields(s) == Some(f)
  {
  }

  /** Where each field and separator sits in the rendered text. */
  lemma RenderSlices(f: Fields)
    requires ValidFields(f)
    ensures var s := Render(f);
      s[4] == '-' && s[7] == '-' && s[10] == ' ' && s[13] == ':' && s[16] == ':'
      && s[0..4] == FormatDigits(f.date.year, 4) && s[5..7] == FormatDigits(f.date.month, 2)
      && s[8..10] == FormatDigits(f.date.day, 2) && s[11..13] == FormatDigits(f.hour, 2)
      && s[14..16] == FormatDigits(f.minute, 2) && s[17..19] == FormatDigits(f.second, 2)
  {
    var s := Render(f);
    assert s[0..4] == FormatDigits(f.date.year, 4);
    assert s[5..7] == FormatDigits(f.date.month, 2);
    assert s[8..10] == FormatDigits(f.date.day, 2);
    assert s[11..13] == FormatDigits(f.hour, 2);
    assert s[14..16] == FormatDigits(f.minute, 2);
    assert s[17..19] == FormatDigits(f.second, 2);
  }

  lemma RenderParse(s: string)
    requires ParseFields(s).Some?
    ensures Render(ParseFields(s).value) == s
  {
    FormatOfDigitsValue(s[0..4]);
    FormatOfDigitsValue(s[5..7]);
    FormatOfDigitsValue(s[8..10]);
    FormatOfDigitsValue(s[11..13]);
    FormatOfDigitsValue(s[14..16]);
    FormatOfDigitsValue(s[17..19]);
    assert s == s[0..4] + [s[4]] + s[5..7] + [s[7]] + s[8..10] + [s[10]] + s[11..13] + [s[13]]
                + s[14..16] + [s[16]] + s[17..19];
  }

  /** `t.ToString("yyyy-MM-dd HH:mm:ss")` (Gregorian calendar, ':' as time separator). */
  function FormatTimestamp(t: Ticks): (s: string)
    ensures |s| == 19
  {
    Render(FieldsOf(t))
  }

  /** `DateTime.TryParse` on the text FormatTimestamp writes. */
  function ParseTimestamp(s: string): (r: Option<Ticks>)
    ensures r.Some? ==> r.value % TicksPerSecond == 0 && |s| == 19
  {
    match ParseFields(s)
    case Some(f) => Some(TicksOf(f))
    case None => None
  }

  /** The stored text keeps the instant to the whole second: the sub-second ticks are lost. */
  lemma ParseFormatTimestamp(t: Ticks)
    ensures ParseTimestamp(FormatTimestamp(t)) == Some(t - t % TicksPerSecond)
  {
    var f := FieldsOf(t);
    calc {
      ParseTimestamp(FormatTimestamp(t));
      ParseTimestamp(Render(f));
      { ParseTimestampOfRender(f); }
      Some(TicksOf(f));
      { TicksOfFieldsOf(t); }
      Some(t - t % TicksPerSecond);
    }
  }

  /** Rendered fields read back as the moment they name. */
  lemma ParseTimestampOfRender(f: Fields)
    requires ValidFields(f)
    ensures ParseTimestamp(Render(f)) == Some(TicksOf(f))
  {
    ParseRender(f);
  }

  /** Text that parses is exactly the text of the instant it parses to. */
  lemma FormatParseTimestamp(s: string)
    requires ParseTimestamp(s).Some?
    ensures FormatTimestamp(ParseTimestamp(s).value) == s
  {
    var f := ParseFields(s).value;
    FieldsOfTicksOf(f);
    RenderParse(s);
  }
}
