/** The UTC rendering `Utc.timestamp_millis_opt(ms).unwrap().format("%Y-%m-%d %H:%M:%S")`
    over the proleptic Gregorian calendar. The day number is converted to a
    civil date with the era-based (400-year cycle) algorithm; `DaysFromCivil`
    is its inverse, and `FormatMillisInjective` shows that two instants in
    different seconds never render alike. */
module DateTime {
  import opened Numeric

  const MillisPerSecond: int := 1000
  const SecondsPerDay: int := 86400
  // Literals used below: 146097 is the number of days in one 400-year
  // Gregorian cycle, 719468 the number of days from 0000-03-01 to 1970-01-01.

  datatype Civil = Civil(year: int, month: int, day: int)

  /** Position within one 400-year era that starts on a 1 March: year of
      era (0..399), March-based month (0 = March .. 11 = February) and day. */
  datatype EraDate = EraDate(yoe: int, mp: int, day: int)

  function YearOfEra(doe: int): int
  {
    (doe - doe / 1460 + doe / 36524 - doe / 146096) / 365
  }

  function DayOfYear(doe: int): int
  {
    var yoe := YearOfEra(doe);
    doe - (365 * yoe + yoe / 4 - yoe / 100)
  }

  /** A day of era below the last one lies in century `b`, four-year cycle
      `q` of that century, day `s` of that cycle. */
  lemma SplitDayOfEra(doe: int) returns (b: int, q: int, s: int)
    requires 0 <= doe < 146096
    ensures doe == 36524 * b + 1461 * q + s
    ensures 0 <= b <= 3 && 0 <= q <= 24 && 0 <= s <= 1460 && (q == 24 ==> s <= 1459)
  {
    b := doe / 36524;
    q := doe % 36524 / 1461;
    s := doe % 36524 % 1461;
  }

  lemma EraQuotients(b: int, q: int, s: int)
    requires 0 <= b <= 3 && 0 <= q <= 24 && 0 <= s <= 1460 && (q == 24 ==> s <= 1459)
    ensures var doe := 36524 * b + 1461 * q + s;
      var delta := if 24 * b + q + s >= 1460 then 1 else 0;
      doe / 1460 == 25 * b + q + delta && doe / 36524 == b && doe / 146096 == 0
  {
  }

  lemma EraYearQuotient(b: int, q: int, s: int, delta: int)
    requires 0 <= b <= 3 && 0 <= q <= 24 && 0 <= s <= 1460 && (q == 24 ==> s <= 1459)
    requires delta == if 24 * b + q + s >= 1460 then 1 else 0
    ensures 0 <= s - delta <= 1459
    ensures (36500 * b + 1460 * q + s - delta) / 365 == 100 * b + 4 * q + (s - delta) / 365
  {
  }

  lemma LeapQuotients(b: int, q: int, k: int)
    requires 0 <= b <= 3 && 0 <= q <= 24 && 0 <= k <= 3
    ensures var yoe := 100 * b + 4 * q + k; yoe / 4 == 25 * b + q && yoe / 100 == b
  {
  }

  lemma YearOfEraValue(doe: int, b: int, q: int, s: int, delta: int)
    requires doe == 36524 * b + 1461 * q + s
    requires 0 <= b <= 3 && 0 <= q <= 24 && 0 <= s <= 1460 && (q == 24 ==> s <= 1459)
    requires delta == if 24 * b + q + s >= 1460 then 1 else 0
    ensures 0 <= (s - delta) / 365 <= 3
    ensures YearOfEra(doe) == 100 * b + 4 * q + (s - delta) / 365
  {
    EraQuotients(b, q, s);
    EraYearQuotient(b, q, s, delta);
    assert doe - doe / 1460 + doe / 36524 - doe / 146096 == 36500 * b + 1460 * q + s - delta;
  }

  lemma LeapDays(b: int, q: int, k: int)
    requires 0 <= b <= 3 && 0 <= q <= 24 && 0 <= k <= 3
    ensures var yoe := 100 * b + 4 * q + k;
      365 * yoe + yoe / 4 - yoe / 100 == 36524 * b + 1461 * q + 365 * k
  {
    LeapQuotients(b, q, k);
  }

  /** Within century `b`, four-year cycle `q`, day `s`: the year of era is
      `100 * b + 4 * q + k` and the day of year `s - 365 * k`, for the `k`
      below. */
  lemma YearOfEraInCycle(doe: int, b: int, q: int, s: int)
    requires doe == 36524 * b + 1461 * q + s
    requires 0 <= b <= 3 && 0 <= q <= 24 && 0 <= s <= 1460 && (q == 24 ==> s <= 1459)
    ensures var delta := if 24 * b + q + s >= 1460 then 1 else 0;
      var k := (s - delta) / 365;
      0 <= k <= 3 && YearOfEra(doe) == 100 * b + 4 * q + k && DayOfYear(doe) == s - 365 * k
  {
    var delta := if 24 * b + q + s >= 1460 then 1 else 0;
    var k := (s - delta) / 365;
    YearOfEraValue(doe, b, q, s, delta);
    var yoe := 100 * b + 4 * q + k;
    LeapDays(b, q, k);
    assert DayOfYear(doe) == doe - (365 * yoe + yoe / 4 - yoe / 100);
  }

  /** The year of era is below 400 and the day of that (March-based) year
      is at most 365. */
  lemma DayOfEraBounds(doe: int)
    requires 0 <= doe < 146097
    ensures 0 <= YearOfEra(doe) < 400
    ensures 0 <= DayOfYear(doe) <= 365
  {
    if doe == 146096 {
      assert YearOfEra(doe) == 399;
    } else {
      var b, q, s := SplitDayOfEra(doe);
      YearOfEraInCycle(doe, b, q, s);
    }
  }

  lemma MonthBounds(doy: int)
    requires 0 <= doy <= 365
    ensures var mp := (5 * doy + 2) / 153;
      0 <= mp < 12 && 1 <= doy - (153 * mp + 2) / 5 + 1 <= 31
  {
  }

  /** Splits a day of era (0..146096) into year of era, month and day. */
  function EraDateOf(doe: int): (e: EraDate)
    requires 0 <= doe < 146097
    ensures 0 <= e.yoe < 400 && 0 <= e.mp < 12 && 1 <= e.day <= 31
    ensures DayOfEra(e) == doe
  {
    DayOfEraBounds(doe);
    var yoe := YearOfEra(doe);
    var doy := DayOfYear(doe);
    MonthBounds(doy);
    var mp := (5 * doy + 2) / 153;
    EraDate(yoe, mp, doy - (153 * mp + 2) / 5 + 1)
  }

  /** The inverse of `EraDateOf`. */
  function DayOfEra(e: EraDate): int
  {
    e.yoe * 365 + e.yoe / 4 - e.yoe / 100 + (153 * e.mp + 2) / 5 + e.day - 1
  }

  /** The civil date of a position in the era that starts in year `era * 400`. */
  function CivilOfEraDate(era: int, e: EraDate): (c: Civil)
    requires 0 <= e.mp < 12 && 1 <= e.day <= 31
    ensures 1 <= c.month <= 12 && 1 <= c.day <= 31
  {
    var m := if e.mp < 10 then e.mp + 3 else e.mp - 9;
    Civil(if m <= 2 then e.yoe + era * 400 + 1 else e.yoe + era * 400, m, e.day)
  }

  /** The civil date of `z` days after 1970-01-01 (negative: before it). */
  function CivilFromDays(z: int): (c: Civil)
    ensures 1 <= c.month <= 12 && 1 <= c.day <= 31
  {
    var shifted := z + 719468;
    var era := shifted / 146097;
    CivilOfEraDate(era, EraDateOf(shifted - era * 146097))
  }

  /** The day number (days after 1970-01-01) of a civil date. */
  function DaysFromCivil(c: Civil): int
    requires 1 <= c.month <= 12
  {
    var y := if c.month <= 2 then c.year - 1 else c.year;
    var era := y / 400;
    var mp := if c.month > 2 then c.month - 3 else c.month + 9;
    era * 146097 + DayOfEra(EraDate(y - era * 400, mp, c.day)) - 719468
  }

  lemma DaysFromCivilOfEraDate(era: int, e: EraDate)
    requires 0 <= e.yoe < 400 && 0 <= e.mp < 12 && 1 <= e.day <= 31
    ensures DaysFromCivil(CivilOfEraDate(era, e)) == era * 146097 + DayOfEra(e) - 719468
  {
    var c := CivilOfEraDate(era, e);
    var y := if c.month <= 2 then c.year - 1 else c.year;
    assert y == e.yoe + era * 400;
    assert y / 400 == era;
    assert (if c.month > 2 then c.month - 3 else c.month + 9) == e.mp;
  }

  /** No two day numbers have the same civil date. */
  lemma CivilFromDaysRoundTrip(z: int)
    ensures DaysFromCivil(CivilFromDays(z)) == z
  {
    var shifted := z + 719468;
    var era := shifted / 146097;
    var doe := shifted - era * 146097;
    EraRemainder(shifted);
    var e := EraDateOf(doe);
    assert CivilFromDays(z) == CivilOfEraDate(era, e);
    DaysFromCivilOfEraDate(era, e);
  }

  lemma EraRemainder(shifted: int)
    ensures 0 <= shifted - shifted / 146097 * 146097 < 146097
  {
  }

  /** `CivilFromDays` spelled out for a day whose era, year of era, day of
      year, March-based month and day of month are known. */
  lemma CivilFromDaysAt(z: int, era: int, yoe: int, doy: int, mp: int, day: int)
    requires era == (z + 719468) / 146097
    requires YearOfEra(z + 719468 - era * 146097) == yoe
    requires DayOfYear(z + 719468 - era * 146097) == doy
    requires mp == (5 * doy + 2) / 153 && day == doy - (153 * mp + 2) / 5 + 1
    ensures CivilFromDays(z) == CivilOfEraDate(era, EraDate(yoe, mp, day))
  {
    var doe := z + 719468 - era * 146097;
    EraRemainder(z + 719468);
    var e := EraDateOf(doe);
    assert e.yoe == yoe && e.mp == mp && e.day == day;
    assert CivilFromDays(z) == CivilOfEraDate(era, e);
  }

  /** The day number 0 is 1970-01-01. */
  lemma EpochIsNewYear1970()
    ensures CivilFromDays(0) == Civil(1970, 1, 1)
  {
    CivilFromDaysAt(0, 4, 369, 306, 10, 1);
  }

  /** The day number 19675 is 2023-11-14. */
  lemma Day19675IsNovember14th2023()
    ensures CivilFromDays(19675) == Civil(2023, 11, 14)
  {
    CivilFromDaysAt(19675, 5, 23, 258, 8, 14);
  }

  /** The Gregorian leap rule. */
  predicate IsLeapYear(y: int)
  {
    y % 4 == 0 && (y % 100 != 0 || y % 400 == 0)
  }

  /** The length of month `m` of a common year. */
  function CommonMonthDays(m: int): int
  {
    if m == 2 then 28 else if m == 4 || m == 6 || m == 9 || m == 11 then 30 else 31
  }

  /** The length of month `m` of year `y`. */
  function DaysInMonth(y: int, m: int): int
  {
    if m == 2 && IsLeapYear(y) then 29 else CommonMonthDays(m)
  }

  /** The March-based month of a day of the year never runs past that
      month's length in a common year, except for 29 February, which is the
      last day (365) of a March-based year. */
  lemma DayOfMonthBound(doy: int)
    requires 0 <= doy <= 365
    ensures var mp := (5 * doy + 2) / 153;
      var m := if mp < 10 then mp + 3 else mp - 9;
      var day := doy - (153 * mp + 2) / 5 + 1;
      day <= CommonMonthDays(m) || (m == 2 && day == 29 && doy == 365)
  {
    var mp := (5 * doy + 2) / 153;
    assert 153 * mp <= 5 * doy + 2 < 153 * mp + 153;
    MonthBounds(doy);
  }

  /** A March-based year whose day 365 exists ends in a leap February: the
      civil year it ends in is a leap year. */
  lemma LastDayOfYearIsLeap(era: int, doe: int)
    requires 0 <= doe < 146097 && DayOfYear(doe) == 365
    ensures IsLeapYear(era * 400 + YearOfEra(doe) + 1)
  {
    if doe == 146096 {
      assert YearOfEra(doe) == 399;
      assert (era + 1) * 400 == era * 400 + 399 + 1;
      LeapCentury(era + 1);
    } else {
      var b, q, s := SplitDayOfEra(doe);
      YearOfEraInCycle(doe, b, q, s);
      var delta := if 24 * b + q + s >= 1460 then 1 else 0;
      assert delta == 1 && s == 1460 by {
        var k := (s - delta) / 365;
        assert s - 365 * k == 365;
      }
      assert YearOfEra(doe) + 1 == 100 * b + 4 * (q + 1);
      LeapInCentury(era * 4 + b, q + 1);
      assert era * 400 + YearOfEra(doe) + 1 == 100 * (era * 4 + b) + 4 * (q + 1);
    }
  }

  lemma LeapCentury(n: int)
    ensures IsLeapYear(400 * n)
  {
  }

  lemma LeapInCentury(c: int, r: int)
    requires 1 <= r <= 24
    ensures IsLeapYear(100 * c + 4 * r)
  {
    var y := 100 * c + 4 * r;
    assert y == 4 * (25 * c + r);
    assert y % 100 == 4 * r by {
      assert y == 100 * c + 4 * r && 0 <= 4 * r < 100;
    }
  }

  /** Every civil date produced is a real calendar date: its day lies
      within its month, February having 29 days exactly in leap years. */
  lemma CivilFromDaysIsValidDate(z: int)
    ensures var c := CivilFromDays(z); c.day <= DaysInMonth(c.year, c.month)
  {
    var shifted := z + 719468;
    var era := shifted / 146097;
    var doe := shifted - era * 146097;
    EraRemainder(shifted);
    DayOfEraBounds(doe);
    var doy := DayOfYear(doe);
    DayOfMonthBound(doy);
    if doy == 365 {
      LastDayOfYearIsLeap(era, doe);
    }
  }

  /** Two decimal digits, zero-padded (`%m`, `%d`, `%H`, `%M`, `%S`). */
  function Pad2(n: nat): (s: string)
    requires n < 100
    ensures |s| == 2 && AllDigits(s) && DecimalValue(s) == n
  {
    DecimalValueAppend([], DigitChar(n / 10));
    DecimalValueAppend([DigitChar(n / 10)], DigitChar(n % 10));
    [DigitChar(n / 10)] + [DigitChar(n % 10)]
  }

  /** Four decimal digits, zero-padded. */
  function Pad4(n: nat): (s: string)
    requires n < 10000
    ensures |s| == 4 && AllDigits(s) && DecimalValue(s) == n
  {
    var hi := Pad2(n / 100);
    DecimalValueAppend(hi, DigitChar(n / 10 % 10));
    DecimalValueAppend(hi + [DigitChar(n / 10 % 10)], DigitChar(n % 10));
    hi + [DigitChar(n / 10 % 10)] + [DigitChar(n % 10)]
  }

  /** chrono's `%Y`: four zero-padded digits for years 0..9999; any other
      year carries an explicit sign before at least four digits. */
  function YearString(y: int): (s: string)
    ensures 0 <= y <= 9999 ==> |s| == 4 && AllDigits(s) && DecimalValue(s) == y
    ensures !(0 <= y <= 9999) ==> |s| >= 5 && (s[0] == '-' <==> y < 0) && (s[0] == '+' <==> y > 9999)
  {
    if 0 <= y <= 9999 then Pad4(y)
    else if -9999 <= y < 0 then "-" + Pad4(-y)
    else if y < 0 then
      NatToStringLong(-y);
      "-" + NatToString(-y)
    else
      NatToStringLong(y);
      "+" + NatToString(y)
  }

  lemma NatToStringLong(n: nat)
    requires n >= 10000
    ensures |NatToString(n)| >= 5
  {
    var n1 := n / 10;
    var n2 := n1 / 10;
    var n3 := n2 / 10;
    NatToStringLength(n);
    NatToStringLength(n1);
    NatToStringLength(n2);
    NatToStringLength(n3);
  }

  /** The second an instant of `ms` milliseconds after the epoch falls in
      (rounded down, also before the epoch). */
  function SecondOf(ms: int): int
  {
    ms / MillisPerSecond
  }

  function CivilOf(ms: int): Civil
  {
    CivilFromDays(SecondOf(ms) / SecondsPerDay)
  }

  lemma ClockFields(sod: int)
    requires 0 <= sod < SecondsPerDay
    ensures 0 <= sod / 3600 < 24 && 0 <= sod % 3600 / 60 < 60 && 0 <= sod % 60 < 60
  {
  }

  /** `%Y-%m-%d %H:%M:%S` of the UTC instant `ms` milliseconds after the epoch. */
  function FormatMillis(ms: int): (r: string)
    ensures 0 <= CivilOf(ms).year <= 9999 ==>
      |r| == 19 && r[4] == '-' && r[7] == '-' && r[10] == ' ' && r[13] == ':' && r[16] == ':'
  {
    var secs := SecondOf(ms);
    var c := CivilFromDays(secs / SecondsPerDay);
    var sod := secs % SecondsPerDay;
    ClockFields(sod);
    YearString(c.year) + "-" + Pad2(c.month) + "-" + Pad2(c.day) + " "
      + Pad2(sod / 3600) + ":" + Pad2(sod % 3600 / 60) + ":" + Pad2(sod % 60)
  }

  /** Reading the digit fields of a rendering back gives the civil date and
      the time of day it was rendered from. */
  lemma FormatMillisFields(ms: int)
    requires 0 <= CivilOf(ms).year <= 9999
    ensures var r := FormatMillis(ms); var c := CivilOf(ms);
      var sod := SecondOf(ms) % SecondsPerDay;
      AllDigits(r[0..4]) && DecimalValue(r[0..4]) == c.year
      && AllDigits(r[5..7]) && DecimalValue(r[5..7]) == c.month
      && AllDigits(r[8..10]) && DecimalValue(r[8..10]) == c.day
      && AllDigits(r[11..13]) && DecimalValue(r[11..13]) == sod / 3600
      && AllDigits(r[14..16]) && DecimalValue(r[14..16]) == sod % 3600 / 60
      && AllDigits(r[17..19]) && DecimalValue(r[17..19]) == sod % 60
  {
    var secs := SecondOf(ms);
    var c := CivilOf(ms);
    var sod := secs % SecondsPerDay;
    var r := FormatMillis(ms);
    assert r[0..4] == YearString(c.year);
    assert r[5..7] == Pad2(c.month);
    assert r[8..10] == Pad2(c.day);
    assert r[11..13] == Pad2(sod / 3600);
    assert r[14..16] == Pad2(sod % 3600 / 60);
    assert r[17..19] == Pad2(sod % 60);
  }

  /** Instants in different seconds (of years 0..9999) render differently. */
  lemma FormatMillisInjective(a: int, b: int)
    requires 0 <= CivilOf(a).year <= 9999 && 0 <= CivilOf(b).year <= 9999
    requires FormatMillis(a) == FormatMillis(b)
    ensures SecondOf(a) == SecondOf(b)
  {
    FormatMillisFields(a);
    FormatMillisFields(b);
    var sa, sb := SecondOf(a), SecondOf(b);
    assert CivilOf(a) == CivilOf(b);
    CivilFromDaysRoundTrip(sa / SecondsPerDay);
    CivilFromDaysRoundTrip(sb / SecondsPerDay);
    assert sa / SecondsPerDay == sb / SecondsPerDay;
    TimeOfDayDigits(sa % SecondsPerDay, sb % SecondsPerDay);
  }

  lemma TimeOfDayDigits(x: int, y: int)
    requires 0 <= x < SecondsPerDay && 0 <= y < SecondsPerDay
    requires x / 3600 == y / 3600 && x % 3600 / 60 == y % 3600 / 60 && x % 60 == y % 60
    ensures x == y
  {
  }
}
