/** The proleptic Gregorian calendar as the JavaScript `Date` object sees it
    with a time-zone offset of 0: instants are integer milliseconds since
    1970-01-01T00:00:00Z, calendar days are day numbers (days since
    1970-01-01), and a day number corresponds to a (year, month, day) triple
    with months numbered 1..12. Also the `YYYY-MM-DD` strings that
    `toISOString().split('T')[0]` produces and `new Date(s)` reads. */
module Dates {
  import opened Text
  import opened Wrappers

  const MsPerDay: int := 86400000

  predicate IsLeapYear(y: int) {
    y % 4 == 0 && (y % 100 != 0 || y % 400 == 0)
  }

  function DaysInYear(y: int): (n: int)
    ensures n == 365 || n == 366
    ensures n == 366 <==> IsLeapYear(y)
  {
    if IsLeapYear(y) then 366 else 365
  }

  function DaysInMonth(y: int, m: int): (n: int)
    requires 1 <= m <= 12
    ensures 28 <= n <= 31
    ensures n == 29 <==> m == 2 && IsLeapYear(y)
  {
    if m == 2 then (if IsLeapYear(y) then 29 else 28)
    else if m == 4 || m == 6 || m == 9 || m == 11 then 30
    else 31
  }

  /** Days of year `y` before the first of month `m`. */
  function DaysBeforeMonth(y: int, m: int): int
    requires 1 <= m <= 12
  {
    var leap := if IsLeapYear(y) && m > 2 then 1 else 0;
    leap + (
      if m == 1 then 0 else if m == 2 then 31 else if m == 3 then 59
      else if m == 4 then 90 else if m == 5 then 120 else if m == 6 then 151
      else if m == 7 then 181 else if m == 8 then 212 else if m == 9 then 243
      else if m == 10 then 273 else if m == 11 then 304 else 334)
  }

  lemma MonthStep(y: int, m: int)
    requires 1 <= m <= 12
    ensures m < 12 ==> DaysBeforeMonth(y, m + 1) == DaysBeforeMonth(y, m) + DaysInMonth(y, m)
    ensures m == 12 ==> DaysBeforeMonth(y, m) + DaysInMonth(y, m) == DaysInYear(y)
  {
  }

  /** The day number of January 1st of year `y`. */
  function YearStart(y: int): int
    decreases if y >= 1970 then y - 1970 else 1970 - y
  {
    if y == 1970 then 0
    else if y > 1970 then YearStart(y - 1) + DaysInYear(y - 1)
    else YearStart(y + 1) - DaysInYear(y)
  }

  lemma YearStep(y: int)
    ensures YearStart(y + 1) == YearStart(y) + DaysInYear(y)
  {
  }

  /** Later years start later: at least a year's worth of days later. */
  lemma {:induction false} YearStartMonotone(y1: int, y2: int)
    requires y1 < y2
    ensures YearStart(y2) >= YearStart(y1) + 365 * (y2 - y1)
    decreases y2 - y1
  {
    YearStep(y1);
    if y1 + 1 < y2 {
      YearStartMonotone(y1 + 1, y2);
    }
  }

  /** A calendar date: year, month 1..12, day of month. */
  datatype Civil = Civil(year: int, month: int, day: int)

  predicate IsValid(c: Civil) {
    1 <= c.month <= 12 && 1 <= c.day <= DaysInMonth(c.year, c.month)
  }

  /** The day number of the first of month `m` of year `y`. */
  function MonthStart(y: int, m: int): int
    requires 1 <= m <= 12
  {
    YearStart(y) + DaysBeforeMonth(y, m)
  }

  /** `MakeDay(y, m, d)` of ECMAScript: the `d`-th day counted from the first
      of the month, for any `d` (a day past the month's end runs on into the
      following months). */
  function MakeDay(y: int, m: int, d: int): int
    requires 1 <= m <= 12
  {
    MonthStart(y, m) + d - 1
  }

  function DayNumber(c: Civil): int
    requires 1 <= c.month <= 12
  {
    MakeDay(c.year, c.month, c.day)
  }

  /** Finds the year holding the day `r` days after January 1st of `y`. */
  function FindYear(y: int, r: int): (res: (int, int))
    ensures 0 <= res.1 < DaysInYear(res.0)
    ensures YearStart(res.0) + res.1 == YearStart(y) + r
    decreases if r < 0 then 366 - r else r
  {
    if r < 0 then
      YearStep(y - 1);
      FindYear(y - 1, r + DaysInYear(y - 1))
    else if r >= DaysInYear(y) then
      YearStep(y);
      FindYear(y + 1, r - DaysInYear(y))
    else (y, r)
  }

  /** Finds the month holding day `r` of year `y`, counting from month `m`. */
  function FindMonth(y: int, m: int, r: int): (c: Civil)
    requires 1 <= m <= 12 && 0 <= r
    requires DaysBeforeMonth(y, m) + r < DaysInYear(y)
    ensures IsValid(c) && c.year == y
    ensures DaysBeforeMonth(y, c.month) + c.day - 1 == DaysBeforeMonth(y, m) + r
    decreases 12 - m
  {
    MonthStep(y, m);
    if r < DaysInMonth(y, m) then Civil(y, m, r + 1)
    else FindMonth(y, m + 1, r - DaysInMonth(y, m))
  }

  /** The calendar date of a day number (`getFullYear`, `getMonth() + 1`,
      `getDate()` with offset 0). */
  function CivilOf(n: int): (c: Civil)
    ensures IsValid(c) && DayNumber(c) == n
  {
    var (y, r) := FindYear(1970, n);
    FindMonth(y, 1, r)
  }

  /** Every date of year `y` lies in the days of year `y`. */
  lemma DayNumberInYear(c: Civil)
    requires IsValid(c)
    ensures YearStart(c.year) <= DayNumber(c) < YearStart(c.year) + DaysInYear(c.year)
  {
    MonthStep(c.year, c.month);
    if c.month < 12 {
      var m := c.month + 1;
      assert DaysBeforeMonth(c.year, m) <= DaysBeforeMonth(c.year, 12);
    }
  }

  /** Distinct valid dates have distinct day numbers. */
  lemma DayNumberInjective(a: Civil, b: Civil)
    requires IsValid(a) && IsValid(b) && DayNumber(a) == DayNumber(b)
    ensures a == b
  {
    DayNumberOrder(a, b);
    DayNumberOrder(b, a);
  }

  lemma MonthsAreOrdered(y: int, m1: int, m2: int)
    requires 1 <= m1 < m2 <= 12
    ensures DaysBeforeMonth(y, m1) + DaysInMonth(y, m1) <= DaysBeforeMonth(y, m2)
  {
  }

  /** The calendar date and the day number are two names for one day. */
  lemma CivilOfDayNumber(c: Civil)
    requires IsValid(c)
    ensures CivilOf(DayNumber(c)) == c
  {
    DayNumberInjective(CivilOf(DayNumber(c)), c);
  }

  /** The day `k - 1` days after the first of a month is day `k` of that month. */
  lemma CivilOfMonthDay(y: int, m: int, k: int)
    requires 1 <= m <= 12 && 1 <= k <= DaysInMonth(y, m)
    ensures CivilOf(MonthStart(y, m) + k - 1) == Civil(y, m, k)
  {
    CivilOfDayNumber(Civil(y, m, k));
  }

  /** `getDay()`: 0 is Sunday; 1970-01-01 was a Thursday. */
  function Weekday(n: int): (w: int)
    ensures 0 <= w < 7
  {
    (n + 4) % 7
  }

  /** Each day's weekday follows the previous day's, Saturday wrapping to Sunday. */
  lemma WeekdayNext(n: int)
    ensures Weekday(n + 1) == if Weekday(n) == 6 then 0 else Weekday(n) + 1
  {
  }

  /** A day less than a week after a Sunday has the distance as its weekday. */
  lemma WeekdayAfterSunday(sunday: int, n: int)
    requires Weekday(sunday) == 0 && sunday <= n < sunday + 7
    ensures Weekday(n) == n - sunday
  {
    var k := (sunday + 4) / 7;
    assert sunday + 4 == 7 * k;
    assert n + 4 == 7 * k + (n - sunday);
  }

  /** The day number of an instant (the instant's UTC day). */
  function DayOf(t: int): int {
    t / MsPerDay
  }

  // ---------------------------------------------------------------------
  // ISO date strings

  function Pow10(n: nat): (p: nat)
    ensures p >= 1
  {
    if n == 0 then 1 else 10 * Pow10(n - 1)
  }

  predicate IsDigit(c: char) {
    '0' <= c <= '9'
  }

  predicate AllDigits(s: String) {
    forall i :: 0 <= i < |s| ==> IsDigit(s[i])
  }

  function DigitChar(d: int): char
    requires 0 <= d <= 9
  {
    (48 + d) as char
  }

  /** The last `n` decimal digits of `v`, zero-padded to width `n`. */
  function Digits(v: nat, n: nat): (s: String)
    ensures |s| == n && AllDigits(s)
  {
    if n == 0 then [] else Digits(v / 10, n - 1) + [DigitChar(v % 10)]
  }

  /** The value of a string of decimal digits. */
  function DigitsValue(s: String): (v: nat)
    requires AllDigits(s)
    ensures v < Pow10(|s|)
  {
    if s == [] then 0
    else DigitsValue(s[..|s| - 1]) * 10 + (s[|s| - 1] as int - 48)
  }

  lemma {:induction false} DigitsRoundTrip(v: nat, n: nat)
    requires v < Pow10(n)
    ensures DigitsValue(Digits(v, n)) == v
  {
    if n > 0 {
      DigitsRoundTrip(v / 10, n - 1);
      var s := Digits(v, n);
      assert s[..|s| - 1] == Digits(v / 10, n - 1);
    }
  }

  lemma {:induction false} ValueRoundTrip(s: String)
    requires AllDigits(s)
    ensures Digits(DigitsValue(s), |s|) == s
  {
    if s != [] {
      var p := s[..|s| - 1];
      ValueRoundTrip(p);
      var v := DigitsValue(s);
      var d := s[|s| - 1] as int - 48;
      assert 0 <= d <= 9;
      assert v == DigitsValue(p) * 10 + d;
      assert v / 10 == DigitsValue(p) && v % 10 == d;
      assert DigitChar(d) == s[|s| - 1];
      assert Digits(v, |s|) == Digits(DigitsValue(p), |p|) + [DigitChar(d)];
      assert s == p + [s[|s| - 1]];
    }
  }

  /** Zero-padded fixed-width decimal strings sort like the numbers they spell. */
  lemma {:induction false} DigitsOrder(v1: nat, v2: nat, n: nat)
    requires v1 < Pow10(n) && v2 < Pow10(n)
    ensures Less(Digits(v1, n), Digits(v2, n)) <==> v1 < v2
  {
    if n == 0 {
      NotLessSelf([]);
    } else {
      var p1, p2 := Digits(v1 / 10, n - 1), Digits(v2 / 10, n - 1);
      var d1, d2 := DigitChar(v1 % 10), DigitChar(v2 % 10);
      LessAppend(p1, [d1], p2, [d2]);
      DigitsOrder(v1 / 10, v2 / 10, n - 1);
      if p1 == p2 {
        DigitsRoundTrip(v1 / 10, n - 1);
        DigitsRoundTrip(v2 / 10, n - 1);
        if d1 != d2 {
          LessAtFirstDifference([d1], [d2], 0);
        } else {
          NotLessSelf([d1]);
        }
      } else {
        assert v1 / 10 != v2 / 10;
      }
    }
  }

  /** Comparing two strings made of parts of equal widths: the first part
      that differs decides. */
  lemma {:induction false} LessAppend(a1: String, a2: String, b1: String, b2: String)
    requires |a1| == |b1|
    ensures Less(a1 + a2, b1 + b2) <==> if a1 != b1 then Less(a1, b1) else Less(a2, b2)
  {
    if a1 != [] {
      assert (a1 + a2)[1..] == a1[1..] + a2;
      assert (b1 + b2)[1..] == b1[1..] + b2;
      if a1[0] == b1[0] {
        LessAppend(a1[1..], a2, b1[1..], b2);
        assert a1 == [a1[0]] + a1[1..];
        assert b1 == [b1[0]] + b1[1..];
      }
    } else {
      assert a1 + a2 == a2;
      assert b1 + b2 == b2;
    }
  }

  /** The year field of `toISOString`: four digits for years 0..9999, and
      otherwise a sign followed by six digits. */
  function YearText(y: int): (s: String)
    ensures 0 <= y <= 9999 ==> s == Digits(y, 4)
    ensures !(0 <= y <= 9999) ==> |s| == 7 && s[0] == (if y < 0 then '-' else '+')
  {
    if 0 <= y <= 9999 then Digits(y, 4)
    else if y < 0 then "-" + Digits(-y, 6)
    else "+" + Digits(y, 6)
  }

  /** `toISOString().split('T')[0]` of a date: `YYYY-MM-DD`. */
  function IsoDate(c: Civil): (s: String)
    requires IsValid(c)
    ensures 0 <= c.year <= 9999 ==> |s| == 10 && s[4] == '-' && s[7] == '-'
  {
    YearText(c.year) + "-" + Digits(c.month, 2) + "-" + Digits(c.day, 2)
  }

  /** The years `IsoDate` writes with four digits. */
  predicate HasFourDigitYear(n: int) {
    0 <= CivilOf(n).year <= 9999
  }

  /** `formatDate`: `toISOString().split('T')[0]` of the day numbered `n`. */
  function FormatDay(n: int): String {
    IsoDate(CivilOf(n))
  }

  /** The date `new Date(s)` reads from a `YYYY-MM-DD` string, as a day number;
      `None` stands for an invalid date. */
  function ParseDay(s: String): (r: Option<int>)
    ensures r.Some? ==> HasFourDigitYear(r.value)
  {
    if |s| == 10 && s[4] == '-' && s[7] == '-'
       && AllDigits(s[..4]) && AllDigits(s[5..7]) && AllDigits(s[8..])
    then
      var c := Civil(DigitsValue(s[..4]), DigitsValue(s[5..7]), DigitsValue(s[8..]));
      if IsValid(c) then
        CivilOfDayNumber(c);
        Some(DayNumber(c))
      else None
    else None
  }

  /** Formatting and parsing are inverse: a day prints to a string that reads
      back as that day, and every string that reads as a day is the one that
      day prints to. */
  lemma FormatParseRoundTrip(n: int)
    requires HasFourDigitYear(n)
    ensures ParseDay(FormatDay(n)) == Some(n)
  {
    var c := CivilOf(n);
    var s := FormatDay(n);
    assert s[..4] == Digits(c.year, 4);
    assert s[5..7] == Digits(c.month, 2);
    assert s[8..] == Digits(c.day, 2);
    DigitsRoundTrip(c.year, 4);
    DigitsRoundTrip(c.month, 2);
    DigitsRoundTrip(c.day, 2);
  }

  /** Two days in years 0..9999 print alike exactly when they are the same day. */
  lemma FormatDayInjective(a: int, b: int)
    requires HasFourDigitYear(a) && HasFourDigitYear(b)
    ensures FormatDay(a) == FormatDay(b) <==> a == b
  {
    FormatParseRoundTrip(a);
    FormatParseRoundTrip(b);
  }

  lemma ParseFormatRoundTrip(s: String)
    requires ParseDay(s).Some?
    ensures FormatDay(ParseDay(s).value) == s
  {
    var c := Civil(DigitsValue(s[..4]), DigitsValue(s[5..7]), DigitsValue(s[8..]));
    assert ParseDay(s) == Some(DayNumber(c));
    CivilOfDayNumber(c);
    assert FormatDay(ParseDay(s).value) == IsoDate(c);
    IsoDateOfParts(s, c);
  }

  /** The date a well-formed string reads as prints back as that string. */
  lemma IsoDateOfParts(s: String, c: Civil)
    requires |s| == 10 && s[4] == '-' && s[7] == '-'
    requires AllDigits(s[..4]) && AllDigits(s[5..7]) && AllDigits(s[8..])
    requires c == Civil(DigitsValue(s[..4]), DigitsValue(s[5..7]), DigitsValue(s[8..])) && IsValid(c)
    ensures IsoDate(c) == s
  {
    var y, m, d := s[..4], s[5..7], s[8..];
    ValueRoundTrip(y);
    ValueRoundTrip(m);
    ValueRoundTrip(d);
    FourDigitYear(y);
    DashedParts(s);
  }

  lemma FourDigitYear(y: String)
    requires |y| == 4 && AllDigits(y)
    ensures YearText(DigitsValue(y)) == Digits(DigitsValue(y), 4)
  {
    assert Pow10(4) == 10000;
  }

  lemma DashedParts(s: String)
    requires |s| == 10 && s[4] == '-' && s[7] == '-'
    ensures s == s[..4] + "-" + s[5..7] + "-" + s[8..]
  {
  }

  /** Calendar dates in order: by year, then month, then day. */
  predicate CivilBefore(a: Civil, b: Civil) {
    a.year < b.year || (a.year == b.year && (a.month < b.month || (a.month == b.month && a.day < b.day)))
  }

  lemma DayNumberOrder(a: Civil, b: Civil)
    requires IsValid(a) && IsValid(b)
    ensures CivilBefore(a, b) <==> DayNumber(a) < DayNumber(b)
  {
    DayNumberInYear(a);
    DayNumberInYear(b);
    if a.year < b.year {
      YearStep(a.year);
      if a.year + 1 < b.year {
        YearStartMonotone(a.year + 1, b.year);
      }
    } else if b.year < a.year {
      YearStep(b.year);
      if b.year + 1 < a.year {
        YearStartMonotone(b.year + 1, a.year);
      }
    } else if a.month < b.month {
      MonthsAreOrdered(a.year, a.month, b.month);
    } else if b.month < a.month {
      MonthsAreOrdered(a.year, b.month, a.month);
    }
  }

  /** For `YYYY-MM-DD` strings, comparing the strings compares the dates. */
  lemma IsoOrderIsChronological(s1: String, s2: String)
    requires ParseDay(s1).Some? && ParseDay(s2).Some?
    ensures Less(s1, s2) <==> ParseDay(s1).value < ParseDay(s2).value
  {
    var n1, n2 := ParseDay(s1).value, ParseDay(s2).value;
    ParseFormatRoundTrip(s1);
    ParseFormatRoundTrip(s2);
    var a, b := CivilOf(n1), CivilOf(n2);
    DayNumberOrder(a, b);
    IsoDateOrder(a, b);
  }

  /** For four-digit years, the ISO text of dates orders them as the
      calendar does. */
  lemma IsoDateOrder(a: Civil, b: Civil)
    requires IsValid(a) && IsValid(b) && 0 <= a.year <= 9999 && 0 <= b.year <= 9999
    ensures Less(IsoDate(a), IsoDate(b)) <==> CivilBefore(a, b)
  {
    var y1, y2 := Digits(a.year, 4), Digits(b.year, 4);
    var m1, m2 := Digits(a.month, 2), Digits(b.month, 2);
    var d1, d2 := Digits(a.day, 2), Digits(b.day, 2);
    IsoDateShape(a);
    IsoDateShape(b);
    IsoPartsOrder(y1, m1, d1, y2, m2, d2);
    Pow10Widths();
    DigitsCompare(a.year, b.year, 4);
    DigitsCompare(a.month, b.month, 2);
    DigitsCompare(a.day, b.day, 2);
  }

  lemma IsoDateShape(c: Civil)
    requires IsValid(c) && 0 <= c.year <= 9999
    ensures IsoDate(c) == Digits(c.year, 4) + ("-" + (Digits(c.month, 2) + ("-" + Digits(c.day, 2))))
  {
  }

  lemma Pow10Widths()
    ensures Pow10(2) == 100 && Pow10(4) == 10000
  {
  }

  /** Fixed-width decimal strings are equal and ordered as their values are. */
  lemma DigitsCompare(v1: nat, v2: nat, n: nat)
    requires v1 < Pow10(n) && v2 < Pow10(n)
    ensures Digits(v1, n) == Digits(v2, n) <==> v1 == v2
    ensures Less(Digits(v1, n), Digits(v2, n)) <==> v1 < v2
  {
    DigitsOrder(v1, v2, n);
    DigitsRoundTrip(v1, n);
    DigitsRoundTrip(v2, n);
  }

  /** Dash-separated fields of fixed widths compare field by field. */
  lemma IsoPartsOrder(y1: String, m1: String, d1: String, y2: String, m2: String, d2: String)
    requires |y1| == |y2| && |m1| == |m2|
    ensures Less(y1 + ("-" + (m1 + ("-" + d1))), y2 + ("-" + (m2 + ("-" + d2))))
        <==> if y1 != y2 then Less(y1, y2) else if m1 != m2 then Less(m1, m2) else Less(d1, d2)
  {
    LessAppend(y1, "-" + (m1 + ("-" + d1)), y2, "-" + (m2 + ("-" + d2)));
    LessAfterDash(m1 + ("-" + d1), m2 + ("-" + d2));
    LessAppend(m1, "-" + d1, m2, "-" + d2);
    LessAfterDash(d1, d2);
  }

  lemma LessAfterDash(a: String, b: String)
    ensures Less("-" + a, "-" + b) <==> Less(a, b)
  {
    LessAppend("-", a, "-", b);
  }

  // ---------------------------------------------------------------------
  // Months

  /** The month after month `m` of year `y`. */
  function MonthAfter(y: int, m: int): (r: (int, int))
    requires 1 <= m <= 12
    ensures 1 <= r.1 <= 12 && r.1 != m
    ensures r.0 * 12 + r.1 == y * 12 + m + 1
  {
    if m == 12 then (y + 1, 1) else (y, m + 1)
  }

  /** The month before month `m` of year `y`. */
  function MonthBefore(y: int, m: int): (r: (int, int))
    requires 1 <= m <= 12
    ensures 1 <= r.1 <= 12 && r.1 != m
    ensures r.0 * 12 + r.1 == y * 12 + m - 1
  {
    if m == 1 then (y - 1, 12) else (y, m - 1)
  }

  /** A month ends where the next one starts. */
  lemma MonthAfterStart(y: int, m: int)
    requires 1 <= m <= 12
    ensures MonthStart(MonthAfter(y, m).0, MonthAfter(y, m).1) == MonthStart(y, m) + DaysInMonth(y, m)
  {
    MonthStep(y, m);
    if m == 12 {
      YearStep(y);
    }
  }

  /** The days of a month are exactly the day numbers from its first day on,
      as many as the month has days. */
  lemma CivilInMonth(y: int, m: int, n: int)
    requires 1 <= m <= 12
    ensures (CivilOf(n).year == y && CivilOf(n).month == m)
        <==> MonthStart(y, m) <= n < MonthStart(y, m) + DaysInMonth(y, m)
    ensures MonthStart(y, m) <= n < MonthStart(y, m) + DaysInMonth(y, m)
        ==> CivilOf(n) == Civil(y, m, n - MonthStart(y, m) + 1)
  {
    if MonthStart(y, m) <= n < MonthStart(y, m) + DaysInMonth(y, m) {
      CivilOfMonthDay(y, m, n - MonthStart(y, m) + 1);
    }
  }

  /** `date.setMonth(date.getMonth() + delta)`: ECMAScript's `MakeDay`
      normalises the month index into a year and a month and keeps the day of
      the month and the time of day, so a day past the target month's end
      runs on into the month after it. */
  function AddMonths(t: int, delta: int): int {
    var c := CivilOf(DayOf(t));
    var k := c.month - 1 + delta;
    MakeDay(c.year + k / 12, k % 12 + 1, c.day) * MsPerDay + t % MsPerDay
  }

  /** The month index `delta` months after the month of instant `t`. */
  function TargetMonth(t: int, delta: int): (r: (int, int))
    ensures 1 <= r.1 <= 12
    ensures r.0 * 12 + r.1 == CivilOf(DayOf(t)).year * 12 + CivilOf(DayOf(t)).month + delta
  {
    var c := CivilOf(DayOf(t));
    var k := c.month - 1 + delta;
    (c.year + k / 12, k % 12 + 1)
  }

  /** Moving by `delta` months keeps the time of day and lands on the same day
      of the target month when that month has the day; otherwise it lands on
      the overflowing day of the month after the target. */
  lemma AddMonthsLands(t: int, delta: int)
    ensures AddMonths(t, delta) % MsPerDay == t % MsPerDay
    ensures var c := CivilOf(DayOf(t));
            var (ty, tm) := TargetMonth(t, delta);
            var r := CivilOf(DayOf(AddMonths(t, delta)));
            if c.day <= DaysInMonth(ty, tm) then r == Civil(ty, tm, c.day)
            else r == Civil(MonthAfter(ty, tm).0, MonthAfter(ty, tm).1, c.day - DaysInMonth(ty, tm))
  {
    var c := CivilOf(DayOf(t));
    var (ty, tm) := TargetMonth(t, delta);
    var d := MakeDay(ty, tm, c.day);
    assert AddMonths(t, delta) == d * MsPerDay + t % MsPerDay;
    assert DayOf(AddMonths(t, delta)) == d;
    if c.day <= DaysInMonth(ty, tm) {
      CivilInMonth(ty, tm, d);
    } else {
      var (ny, nm) := MonthAfter(ty, tm);
      MonthAfterStart(ty, tm);
      CivilInMonth(ny, nm, d);
    }
  }
}
