/**
 * Date helpers: canonical `YYYY-MM-DD` date strings, day counts between
 * dates, past/today/future classification and the October 1 / January 1
 * anchors of the winter arc.
 *
 * A JavaScript `Date` is modelled as an `Instant`: a proleptic Gregorian
 * calendar date (years 1..9999) plus the milliseconds elapsed since that
 * day's midnight. The wall clock is never read: "now" is always a parameter.
 * Day numbers count days from 0001-01-01 (day 0); only differences of day
 * numbers are ever used, so the choice of origin is immaterial.
 */
module Calendar {
  import opened Types

  const MsPerDay: int := 86400000

  datatype CivilDate = CivilDate(year: int, month: int, day: int)

  predicate IsLeapYear(y: int) {
    y % 4 == 0 && (y % 100 != 0 || y % 400 == 0)
  }

  function DaysInMonth(y: int, m: int): int {
    if m == 2 then (if IsLeapYear(y) then 29 else 28)
    else if m == 4 || m == 6 || m == 9 || m == 11 then 30
    else 31
  }

  function DaysInYear(y: int): int {
    if IsLeapYear(y) then 366 else 365
  }

  predicate ValidDate(c: CivilDate) {
    1 <= c.year <= 9999 && 1 <= c.month <= 12 && 1 <= c.day <= DaysInMonth(c.year, c.month)
  }

  type Date = c: CivilDate | ValidDate(c) witness CivilDate(1970, 1, 1)

  /** Days from 0001-01-01 to January 1 of year `y`. */
  function DaysBeforeYear(y: int): int
    requires y >= 1
    decreases y
  {
    if y == 1 then 0 else DaysBeforeYear(y - 1) + DaysInYear(y - 1)
  }

  /** Days from January 1 to the first day of month `m` of year `y`. */
  function DaysBeforeMonth(y: int, m: int): int
    requires 1 <= m <= 12
  {
    [0, 31, 59, 90, 120, 151, 181, 212, 243, 273, 304, 334][m - 1]
      + (if m > 2 && IsLeapYear(y) then 1 else 0)
  }

  function DayNumber(c: Date): Day {
    DaysBeforeYear(c.year) + DaysBeforeMonth(c.year, c.month) + c.day - 1
  }

  /** Chronological order of dates as (year, month, day) triples. */
  predicate Before(c1: CivilDate, c2: CivilDate) {
    || c1.year < c2.year
    || (c1.year == c2.year && c1.month < c2.month)
    || (c1.year == c2.year && c1.month == c2.month && c1.day < c2.day)
  }

  lemma MonthFitsInYear(y: int, m: int)
    requires 1 <= m <= 12
    ensures 0 <= DaysBeforeMonth(y, m)
    ensures DaysBeforeMonth(y, m) + DaysInMonth(y, m) <= DaysInYear(y)
    ensures m < 12 ==> DaysBeforeMonth(y, m) + DaysInMonth(y, m) == DaysBeforeMonth(y, m + 1)
  {
  }

  lemma {:induction false} YearsAdvance(y1: int, y2: int)
    requires 1 <= y1 < y2
    ensures DaysBeforeYear(y1) + DaysInYear(y1) <= DaysBeforeYear(y2)
    decreases y2
  {
    if y2 > y1 + 1 {
      YearsAdvance(y1, y2 - 1);
    }
  }

  lemma MonthsAdvance(y: int, m1: int, m2: int)
    requires 1 <= m1 < m2 <= 12
    ensures DaysBeforeMonth(y, m1) + DaysInMonth(y, m1) <= DaysBeforeMonth(y, m2)
  {
  }

  /** The day number of a date lies inside its year. */
  lemma DayInYear(c: Date)
    ensures DaysBeforeYear(c.year) <= DayNumber(c) < DaysBeforeYear(c.year) + DaysInYear(c.year)
  {
    MonthFitsInYear(c.year, c.month);
  }

  /** Day numbers are strictly increasing in calendar order. */
  lemma DayNumberIncreasing(c1: Date, c2: Date)
    requires Before(c1, c2)
    ensures DayNumber(c1) < DayNumber(c2)
  {
    if c1.year < c2.year {
      DayInYear(c1);
      DayInYear(c2);
      YearsAdvance(c1.year, c2.year);
    } else if c1.month < c2.month {
      MonthsAdvance(c1.year, c1.month, c2.month);
    }
  }

  /** Day numbers identify dates and order them chronologically. */
  lemma DayNumberOrder(c1: Date, c2: Date)
    ensures DayNumber(c1) < DayNumber(c2) <==> Before(c1, c2)
    ensures DayNumber(c1) == DayNumber(c2) <==> c1 == c2
  {
    if Before(c1, c2) {
      DayNumberIncreasing(c1, c2);
    } else if Before(c2, c1) {
      DayNumberIncreasing(c2, c1);
    }
  }

  // ---------------------------------------------------------------------
  // Canonical date strings

  function Digit(n: int): char
    requires 0 <= n < 10
  {
    (48 + n) as char
  }

  predicate IsDigit(ch: char) {
    '0' <= ch <= '9'
  }

  function DigitValue(ch: char): int
    requires IsDigit(ch)
  {
    ch as int - 48
  }

  /** Two-digit zero-padded decimal. */
  function Digits2(n: int): string
    requires 0 <= n < 100
  {
    [Digit(n / 10), Digit(n % 10)]
  }

  /** Four-digit zero-padded decimal. */
  function Digits4(n: int): string
    requires 0 <= n < 10000
  {
    Digits2(n / 100) + Digits2(n % 100)
  }

  /** `YYYY-MM-DD`, the date part of `toISOString()`. */
  function Format(c: Date): (s: string)
    ensures |s| == 10
  {
    Digits4(c.year) + "-" + Digits2(c.month) + "-" + Digits2(c.day)
  }

  predicate IsDateShaped(s: string) {
    && |s| == 10
    && s[4] == '-' && s[7] == '-'
    && IsDigit(s[0]) && IsDigit(s[1]) && IsDigit(s[2]) && IsDigit(s[3])
    && IsDigit(s[5]) && IsDigit(s[6]) && IsDigit(s[8]) && IsDigit(s[9])
  }

  function Fields(s: string): CivilDate
    requires IsDateShaped(s)
  {
    CivilDate(
      1000 * DigitValue(s[0]) + 100 * DigitValue(s[1]) + 10 * DigitValue(s[2]) + DigitValue(s[3]),
      10 * DigitValue(s[5]) + DigitValue(s[6]),
      10 * DigitValue(s[8]) + DigitValue(s[9]))
  }

  /** A `YYYY-MM-DD` string naming an existing calendar date. */
  predicate IsCanonical(s: string) {
    IsDateShaped(s) && ValidDate(Fields(s))
  }

  function Parse(s: string): Date
    requires IsCanonical(s)
  {
    Fields(s)
  }

  lemma ParseFormat(c: Date)
    ensures IsCanonical(Format(c)) && Parse(Format(c)) == c
  {
    var s := Format(c);
    assert s[0] == Digit(c.year / 100 / 10) && s[1] == Digit(c.year / 100 % 10);
    assert s[2] == Digit(c.year % 100 / 10) && s[3] == Digit(c.year % 100 % 10);
    assert s[5] == Digit(c.month / 10) && s[6] == Digit(c.month % 10);
    assert s[8] == Digit(c.day / 10) && s[9] == Digit(c.day % 10);
  }

  lemma FormatParse(s: string)
    requires IsCanonical(s)
    ensures Format(Parse(s)) == s
  {
    var c := Parse(s);
    var f := Format(c);
    assert f[0] == s[0] && f[1] == s[1] && f[2] == s[2] && f[3] == s[3];
    assert f[5] == s[5] && f[6] == s[6] && f[8] == s[8] && f[9] == s[9];
  }

  lemma FormatInjective(c1: Date, c2: Date)
    ensures Format(c1) == Format(c2) <==> c1 == c2
  {
    ParseFormat(c1);
    ParseFormat(c2);
  }

  // ---------------------------------------------------------------------
  // JavaScript string comparison (`<`, `>`). JavaScript compares UTF-16
  // code units and `StrLess` compares code points; the two orders agree
  // whenever one of the strings is ASCII, as every date string is.

  predicate StrLess(a: string, b: string)
    decreases |a|
  {
    if a == [] then b != []
    else if b == [] then false
    else if a[0] != b[0] then a[0] < b[0]
    else StrLess(a[1..], b[1..])
  }

  /** For any two strings exactly one of `a == b`, `a < b`, `b < a` holds. */
  lemma {:induction false} StrLessTrichotomy(a: string, b: string)
    ensures a == b ==> !StrLess(a, b) && !StrLess(b, a)
    ensures a != b ==> StrLess(a, b) != StrLess(b, a)
    decreases |a|
  {
    if a != [] && b != [] && a[0] == b[0] {
      StrLessTrichotomy(a[1..], b[1..]);
      assert a == [a[0]] + a[1..] && b == [b[0]] + b[1..];
    }
  }

  /** Comparing equal-length prefixes first, then the rest. */
  lemma {:induction false} StrLessConcat(a1: string, a2: string, b1: string, b2: string)
    requires |a1| == |b1|
    ensures StrLess(a1 + a2, b1 + b2) <==> StrLess(a1, b1) || (a1 == b1 && StrLess(a2, b2))
    decreases |a1|
  {
    if a1 == [] {
      assert a1 + a2 == a2 && b1 + b2 == b2;
    } else {
      assert (a1 + a2)[0] == a1[0] && (b1 + b2)[0] == b1[0];
      assert (a1 + a2)[1..] == a1[1..] + a2 && (b1 + b2)[1..] == b1[1..] + b2;
      StrLessConcat(a1[1..], a2, b1[1..], b2);
      if a1[0] == b1[0] {
        assert a1 == b1 <==> a1[1..] == b1[1..] by {
          assert a1 == [a1[0]] + a1[1..] && b1 == [b1[0]] + b1[1..];
        }
      }
    }
  }

  lemma Digits2Order(x: int, y: int)
    requires 0 <= x < 100 && 0 <= y < 100
    ensures StrLess(Digits2(x), Digits2(y)) <==> x < y
  {
    StrLessConcat([Digit(x / 10)], [Digit(x % 10)], [Digit(y / 10)], [Digit(y % 10)]);
    StrLessConcat([Digit(x % 10)], [], [Digit(y % 10)], []);
    assert [Digit(x / 10)] + [Digit(x % 10)] == Digits2(x);
    assert [Digit(y / 10)] + [Digit(y % 10)] == Digits2(y);
    assert [Digit(x % 10)] + [] == [Digit(x % 10)];
    assert [Digit(y % 10)] + [] == [Digit(y % 10)];
  }

  lemma Digits4Order(x: int, y: int)
    requires 0 <= x < 10000 && 0 <= y < 10000
    ensures StrLess(Digits4(x), Digits4(y)) <==> x < y
  {
    StrLessConcat(Digits2(x / 100), Digits2(x % 100), Digits2(y / 100), Digits2(y % 100));
    Digits2Order(x / 100, y / 100);
    Digits2Order(x % 100, y % 100);
    ParseDigits2(x / 100);
    ParseDigits2(y / 100);
  }

  lemma ParseDigits2(n: int)
    requires 0 <= n < 100
    ensures 10 * DigitValue(Digits2(n)[0]) + DigitValue(Digits2(n)[1]) == n
  {
  }

  /** String order of canonical dates is chronological order. */
  lemma FormatOrder(c1: Date, c2: Date)
    ensures StrLess(Format(c1), Format(c2)) <==> Before(c1, c2)
    ensures StrLess(Format(c1), Format(c2)) <==> DayNumber(c1) < DayNumber(c2)
  {
    var y1, y2 := Digits4(c1.year), Digits4(c2.year);
    var m1, m2 := Digits2(c1.month), Digits2(c2.month);
    var d1, d2 := Digits2(c1.day), Digits2(c2.day);
    assert Format(c1) == y1 + ("-" + (m1 + ("-" + d1)));
    assert Format(c2) == y2 + ("-" + (m2 + ("-" + d2)));
    StrLessConcat(y1, "-" + (m1 + ("-" + d1)), y2, "-" + (m2 + ("-" + d2)));
    StrLessConcat("-", m1 + ("-" + d1), "-", m2 + ("-" + d2));
    StrLessConcat(m1, "-" + d1, m2, "-" + d2);
    StrLessConcat("-", d1, "-", d2);
    Digits4Order(c1.year, c2.year);
    Digits2Order(c1.month, c2.month);
    Digits2Order(c1.day, c2.day);
    ParseFormat(c1);
    ParseFormat(c2);
    assert y1 == y2 <==> c1.year == c2.year by {
      assert y1 == Format(c1)[0..4] && y2 == Format(c2)[0..4];
    }
    assert m1 == m2 <==> c1.month == c2.month by {
      assert m1 == Format(c1)[5..7] && m2 == Format(c2)[5..7];
    }
    DayNumberOrder(c1, c2);
  }

  // ---------------------------------------------------------------------
  // Instants and the date helpers

  datatype Moment = Moment(date: Date, msOfDay: int)

  /** A point in time: a date and the milliseconds since its midnight. */
  type Instant = t: Moment | 0 <= t.msOfDay < MsPerDay witness Moment(CivilDate(1970, 1, 1), 0)

  function EpochMs(t: Instant): int {
    DayNumber(t.date) * MsPerDay + t.msOfDay
  }

  function Midnight(c: Date): Instant {
    Moment(c, 0)
  }

  /** `Math.ceil(a / b)` for a positive divisor. */
  function CeilDiv(a: int, b: int): int
    requires b > 0
  {
    -((-a) / b)
  }

  /** Rounding a millisecond span up to whole days. */
  lemma CeilDays(k: int, r: int)
    requires 0 <= r < MsPerDay
    ensures CeilDiv(k * MsPerDay - r, MsPerDay) == k
    ensures CeilDiv(k * MsPerDay + r, MsPerDay) == if r > 0 then k + 1 else k
  {
    var q1 := (r - k * MsPerDay) / MsPerDay;
    assert q1 * MsPerDay <= r - k * MsPerDay < q1 * MsPerDay + MsPerDay;
    assert (q1 + k) * MsPerDay <= r < (q1 + k + 1) * MsPerDay;
    assert q1 + k == 0;
    var q2 := (-r - k * MsPerDay) / MsPerDay;
    assert (q2 + k) * MsPerDay <= -r < (q2 + k + 1) * MsPerDay;
    assert q2 + k == if r > 0 then -1 else 0;
  }

  /** An argument of `formatDate`: a Date object or a date string. */
  datatype DateArg = At(t: Instant) | Text(s: string)

  /**
   * `formatDate`: the `YYYY-MM-DD` part of `toISOString()`. `None` stands
   * for the RangeError that `toISOString()` throws on an invalid date.
   */
  function FormatDate(x: DateArg): (r: Option<string>)
    ensures r.Some? ==> |r.value| == 10 && IsCanonical(r.value)
    ensures x.At? ==> r == Some(Format(x.t.date))
    ensures x.Text? ==> (r.Some? <==> IsCanonical(x.s))
  {
    match x
    case At(t) =>
      ParseFormat(t.date);
      Some(Format(t.date))
    case Text(s) =>
      if IsCanonical(s) then
        ParseFormat(Parse(s));
        Some(Format(Parse(s)))
      else None
  }

  /** Formatting is the identity on canonical strings, hence idempotent. */
  lemma FormatDateIdempotent(x: DateArg)
    requires FormatDate(x).Some?
    ensures x.Text? ==> FormatDate(x) == Some(x.s)
    ensures FormatDate(Text(FormatDate(x).value)) == FormatDate(x)
  {
    if x.Text? {
      FormatParse(x.s);
    }
    FormatParse(FormatDate(x).value);
  }

  /** `getDaysBetween`: whole days from `start` to `end`; `None` is NaN. */
  function GetDaysBetween(start: string, end: string): (r: Option<int>)
    ensures r.Some? <==> IsCanonical(start) && IsCanonical(end)
    ensures r.Some? ==> r.value == DayNumber(Parse(end)) - DayNumber(Parse(start))
  {
    if IsCanonical(start) && IsCanonical(end) then
      var days := CeilDiv(EpochMs(Midnight(Parse(end))) - EpochMs(Midnight(Parse(start))), MsPerDay);
      CeilDays(DayNumber(Parse(end)) - DayNumber(Parse(start)), 0);
      Some(days)
    else None
  }

  lemma DaysBetweenSelf(a: string)
    requires IsCanonical(a)
    ensures GetDaysBetween(a, a) == Some(0)
  {
  }

  lemma DaysBetweenAntisymmetric(a: string, b: string)
    requires IsCanonical(a) && IsCanonical(b)
    ensures GetDaysBetween(a, b).value == -GetDaysBetween(b, a).value
  {
  }

  /** `getToday` */
  function Today(now: Instant): (s: string)
    ensures IsCanonical(s) && Parse(s) == now.date
  {
    ParseFormat(now.date);
    Format(now.date)
  }

  predicate IsToday(date: string, now: Instant) {
    date == Today(now)
  }

  predicate IsPastDate(date: string, now: Instant) {
    StrLess(date, Today(now))
  }

  predicate IsFutureDate(date: string, now: Instant) {
    StrLess(Today(now), date)
  }

  /** Every string is exactly one of today, past or future. */
  lemma ExactlyOneClassification(date: string, now: Instant)
    ensures IsToday(date, now) || IsPastDate(date, now) || IsFutureDate(date, now)
    ensures !(IsToday(date, now) && IsPastDate(date, now))
    ensures !(IsToday(date, now) && IsFutureDate(date, now))
    ensures !(IsPastDate(date, now) && IsFutureDate(date, now))
  {
    StrLessTrichotomy(date, Today(now));
  }

  /** On canonical dates the string classification is chronological. */
  lemma ClassificationIsChronological(date: string, now: Instant)
    requires IsCanonical(date)
    ensures IsToday(date, now) <==> DayNumber(Parse(date)) == DayNumber(now.date)
    ensures IsPastDate(date, now) <==> DayNumber(Parse(date)) < DayNumber(now.date)
    ensures IsFutureDate(date, now) <==> DayNumber(Parse(date)) > DayNumber(now.date)
  {
    var c := Parse(date);
    FormatParse(date);
    FormatOrder(c, now.date);
    FormatOrder(now.date, c);
    FormatInjective(c, now.date);
    DayNumberOrder(c, now.date);
  }

  /** Day number of January 1 of the year after `y`. */
  function NewYearDay(y: int): Day
    requires y >= 1
  {
    DaysBeforeYear(y + 1)
  }

  function October1(y: int): Date
    requires 1 <= y <= 9999
  {
    CivilDate(y, 10, 1)
  }

  /** The arc, October 1 up to the next January 1, is 92 days long. */
  lemma ArcIs92Days(y: int)
    requires 1 <= y <= 9999
    ensures NewYearDay(y) - DayNumber(October1(y)) == 92
  {
  }

  /** `getDaysUntilNewYear` */
  function GetDaysUntilNewYear(now: Instant): (r: int)
    ensures r == NewYearDay(now.date.year) - DayNumber(now.date)
    ensures 1 <= r <= 366
  {
    var y := now.date.year;
    var days := CeilDiv(NewYearDay(y) * MsPerDay - EpochMs(now), MsPerDay);
    CeilDays(NewYearDay(y) - DayNumber(now.date), now.msOfDay);
    assert NewYearDay(y) * MsPerDay - EpochMs(now)
        == (NewYearDay(y) - DayNumber(now.date)) * MsPerDay - now.msOfDay;
    DayInYear(now.date);
    days
  }

  /** `getWinterStartDate`: October 1 of the current year. */
  function GetWinterStartDate(now: Instant): (s: string)
    ensures IsCanonical(s) && Parse(s) == October1(now.date.year)
  {
    ParseFormat(October1(now.date.year));
    Format(October1(now.date.year))
  }

  /** Whole days, rounded up, from the arc's start (October 1) to `now`. */
  function DaysSinceArcStart(now: Instant): (r: int)
    ensures r == DayNumber(now.date) - DayNumber(October1(now.date.year)) + (if now.msOfDay > 0 then 1 else 0)
  {
    var start := Midnight(October1(now.date.year));
    CeilDays(DayNumber(now.date) - DayNumber(start.date), now.msOfDay);
    assert EpochMs(now) - EpochMs(start)
        == (DayNumber(now.date) - DayNumber(start.date)) * MsPerDay + now.msOfDay;
    CeilDiv(EpochMs(now) - EpochMs(start), MsPerDay)
  }
}
