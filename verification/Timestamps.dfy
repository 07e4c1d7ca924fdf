/** Instants as text: the calendar, RFC 3339 printing with and without nanoseconds (section 5.6
    of RFC 3339; trailing zeros of the fraction trimmed), and parsing back. The order theorem is
    section 5.1 of RFC 3339 for UTC and the years 0000 to 9999. */
module Timestamps {
  import opened Model
  import opened Text

  // ------------------------------------------------------------ the calendar

  predicate IsLeap(y: nat) {
    y % 4 == 0 && (y % 100 != 0 || y % 400 == 0)
  }

  function YearDays(y: nat): (d: nat)
    ensures d == 365 || d == 366
  {
    if IsLeap(y) then 366 else 365
  }

  function MonthDays(y: nat, m: nat): (d: nat)
    ensures 28 <= d <= 31
  {
    if m == 2 then (if IsLeap(y) then 29 else 28)
    else if m == 4 || m == 6 || m == 9 || m == 11 then 30
    else 31
  }

  /** Days from 0000-01-01 to the first day of year y. */
  function YearStart(y: nat): nat {
    if y == 0 then 0 else YearStart(y - 1) + YearDays(y - 1)
  }

  /** Days from the first day of year y to the first day of month m. */
  function MonthStart(y: nat, m: nat): nat {
    if m <= 1 then 0 else MonthStart(y, m - 1) + MonthDays(y, m - 1)
  }

  datatype Civil = Civil(year: nat, month: nat, day: nat, hour: nat, minute: nat, second: nat)

  predicate Valid(c: Civil) {
    && c.year <= 9999
    && 1 <= c.month <= 12
    && 1 <= c.day <= MonthDays(c.year, c.month)
    && c.hour < 24 && c.minute < 60 && c.second < 60
  }

  function DaysOf(c: Civil): nat
    requires c.day >= 1
  {
    YearStart(c.year) + MonthStart(c.year, c.month) + (c.day - 1)
  }

  function SecondsOf(c: Civil): nat
    requires c.day >= 1
  {
    86400 * DaysOf(c) + 3600 * c.hour + 60 * c.minute + c.second
  }

  /** The year that contains day d counted from the start of year y, and the day in that year. */
  function SplitYear(d: nat, y: nat): (nat, nat)
    decreases d
  {
    if d < YearDays(y) then (y, d) else SplitYear(d - YearDays(y), y + 1)
  }

  /** The month that contains day d counted from the start of month m, and the day in it. */
  function SplitMonth(d: nat, y: nat, m: nat): (nat, nat)
    decreases d
  {
    if d < MonthDays(y, m) then (m, d) else SplitMonth(d - MonthDays(y, m), y, m + 1)
  }

  function CivilOf(sec: nat): Civil {
    var (y, doy) := SplitYear(sec / 86400, 0);
    var (m, d) := SplitMonth(doy, y, 1);
    var r := sec % 86400;
    Civil(y, m, d + 1, r / 3600, r / 60 % 60, r % 60)
  }

  /** The first second of year 10000. */
  const SECOND_LIMIT: nat := 86400 * 3652425

  lemma {:induction false} SplitYearSplits(d: nat, y: nat)
    ensures var (z, r) := SplitYear(d, y);
      z >= y && r < YearDays(z) && YearStart(z) + r == YearStart(y) + d
    decreases d
  {
    if d >= YearDays(y) { SplitYearSplits(d - YearDays(y), y + 1); }
  }

  lemma {:induction false} SplitMonthSplits(d: nat, y: nat, m: nat)
    requires 1 <= m <= 12 && MonthStart(y, m) + d < MonthStart(y, 13)
    ensures var (n, r) := SplitMonth(d, y, m);
      m <= n <= 12 && r < MonthDays(y, n) && MonthStart(y, n) + r == MonthStart(y, m) + d
    decreases d
  {
    if d >= MonthDays(y, m) { SplitMonthSplits(d - MonthDays(y, m), y, m + 1); }
  }

  lemma MonthsFillYear(y: nat)
    ensures MonthStart(y, 13) == YearDays(y)
  {
    assert MonthStart(y, 2) == 31;
    assert MonthStart(y, 3) == 31 + MonthDays(y, 2);
    assert MonthStart(y, 4) == MonthStart(y, 3) + 31;
    assert MonthStart(y, 5) == MonthStart(y, 4) + 30;
    assert MonthStart(y, 6) == MonthStart(y, 5) + 31;
    assert MonthStart(y, 7) == MonthStart(y, 6) + 30;
    assert MonthStart(y, 8) == MonthStart(y, 7) + 31;
    assert MonthStart(y, 9) == MonthStart(y, 8) + 31;
    assert MonthStart(y, 10) == MonthStart(y, 9) + 30;
    assert MonthStart(y, 11) == MonthStart(y, 10) + 31;
    assert MonthStart(y, 12) == MonthStart(y, 11) + 30;
    assert MonthStart(y, 13) == MonthStart(y, 12) + 31;
  }

  lemma {:induction false} MonthStartMonotone(y: nat, m: nat, n: nat)
    requires 1 <= m < n
    ensures MonthStart(y, m) + MonthDays(y, m) <= MonthStart(y, n)
  {
    if m + 1 < n { MonthStartMonotone(y, m, n - 1); }
  }

  lemma {:induction false} YearStartMonotone(y: nat, z: nat)
    requires y < z
    ensures YearStart(y) + YearDays(y) <= YearStart(z)
  {
    if y + 1 < z { YearStartMonotone(y, z - 1); }
  }

  function Step(z: nat, k: nat): nat
    requires k > 0
  {
    if z % k == 0 then 1 else 0
  }

  lemma QuotientSteps(z: nat)
    requires z > 0
    ensures z / 4 == (z - 1) / 4 + Step(z, 4)
    ensures z / 100 == (z - 1) / 100 + Step(z, 100)
    ensures z / 400 == (z - 1) / 400 + Step(z, 400)
  {
  }

  lemma LeapSteps(z: nat)
    ensures YearDays(z) == 365 + Step(z, 4) - Step(z, 100) + Step(z, 400)
  {
    MultiplesOfMultiples(z);
  }

  lemma MultiplesOfMultiples(z: nat)
    ensures z % 400 == 0 ==> z % 100 == 0
    ensures z % 100 == 0 ==> z % 4 == 0
  {
    if z % 400 == 0 { assert z == 100 * (4 * (z / 400)); }
    if z % 100 == 0 { assert z == 4 * (25 * (z / 100)); }
  }

  /** The closed form of the Gregorian year count. */
  lemma {:induction false} YearStartClosed(y: nat)
    requires y > 0
    ensures YearStart(y) == 365 * y + (y - 1) / 4 - (y - 1) / 100 + (y - 1) / 400 + 1
  {
    hide Step, YearDays;
    LeapSteps(y - 1);
    if y > 1 {
      YearStartClosed(y - 1);
      QuotientSteps(y - 1);
    } else {
      YearZero();
    }
  }

  lemma YearZero()
    ensures YearDays(0) == 366
  {
  }

  lemma YearInRange(days: nat)
    requires days < 3652425
    ensures SplitYear(days, 0).0 <= 9999
  {
    hide SplitYear, YearDays;
    SplitYearSplits(days, 0);
    var y := SplitYear(days, 0).0;
    YearStartClosed(10000);
    if y > 10000 { YearStartMonotone(10000, y); }
  }

  lemma CivilOfInverts(sec: nat)
    requires sec < SECOND_LIMIT
    ensures Valid(CivilOf(sec)) && SecondsOf(CivilOf(sec)) == sec
  {
    hide SplitYear, SplitMonth, MonthDays, YearDays;
    var days := sec / 86400;
    SplitYearSplits(days, 0);
    YearInRange(days);
    var (y, doy) := SplitYear(days, 0);
    MonthsFillYear(y);
    SplitMonthSplits(doy, y, 1);
    var (m, d) := SplitMonth(doy, y, 1);
    var r := sec % 86400;
    SecondsSplit(r);
    var c := CivilOf(sec);
    assert c == Civil(y, m, d + 1, r / 3600, r / 60 % 60, r % 60);
    assert DaysOf(c) == days;
  }

  lemma SecondsSplit(r: nat)
    requires r < 86400
    ensures r / 3600 < 24 && 3600 * (r / 3600) + 60 * (r / 60 % 60) + r % 60 == r
  {
  }

  // ------------------------------------------------------------ the Gregorian calendar, closed

  /** Days before the first of month m, in a common year. */
  const BEFORE: seq<nat> := [0, 31, 59, 90, 120, 151, 181, 212, 243, 273, 304, 334, 365]

  lemma {:induction false} MonthStartClosed(y: nat, m: nat)
    requires 1 <= m <= 13
    ensures MonthStart(y, m) ==
      BEFORE[m - 1] + if m > 2 && y % 4 == 0 && (y % 100 != 0 || y % 400 == 0) then 1 else 0
  {
    if m > 1 { MonthStartClosed(y, m - 1); }
  }

  /** Every second of the years 0 to 9999 has a date and time of the Gregorian calendar, and counting
      that date and time in closed form gives the second back. */
  lemma CalendarIsGregorian(sec: nat)
    requires sec < SECOND_LIMIT
    ensures var c := CivilOf(sec); var y := c.year;
      && y <= 9999 && 1 <= c.month <= 12 && c.hour < 24 && c.minute < 60 && c.second < 60
      && var leap := if y % 4 == 0 && (y % 100 != 0 || y % 400 == 0) then 1 else 0;
      && 1 <= c.day <= [31, 28 + leap, 31, 30, 31, 30, 31, 31, 30, 31, 30, 31][c.month - 1]
      && sec == 3600 * c.hour + 60 * c.minute + c.second + 86400 *
           (365 * y + (y + 3) / 4 - (y + 99) / 100 + (y + 399) / 400
            + [0, 31, 59, 90, 120, 151, 181, 212, 243, 273, 304, 334][c.month - 1]
            + (if c.month > 2 then leap else 0) + c.day - 1)
  {
    hide SplitYear, SplitMonth, YearStart, MonthStart;
    CivilOfInverts(sec);
    var c := CivilOf(sec);
    MonthStartClosed(c.year, c.month);
    YearStartCeilings(c.year);
    hide CivilOf;
  }

  lemma YearStartCeilings(y: nat)
    ensures YearStart(y) == 365 * y + (y + 3) / 4 - (y + 99) / 100 + (y + 399) / 400
  {
    if y > 0 {
      YearStartClosed(y);
      hide YearStart;
      Ceilings(y);
    }
  }

  lemma Ceilings(y: nat)
    requires y > 0
    ensures (y + 3) / 4 == (y - 1) / 4 + 1
    ensures (y + 99) / 100 == (y - 1) / 100 + 1
    ensures (y + 399) / 400 == (y - 1) / 400 + 1
  {
  }

  /** And every date and time is that of one second. */
  lemma CivilOfSeconds(c: Civil)
    requires Valid(c)
    ensures SecondsOf(c) < SECOND_LIMIT && CivilOf(SecondsOf(c)) == c
  {
    hide CivilOf;
    SecondsInRange(c);
    CivilOfInverts(SecondsOf(c));
    var d := CivilOf(SecondsOf(c));
    if CivilLess(c, d) { CivilLessMeansEarlier(c, d); }
    if CivilLess(d, c) { CivilLessMeansEarlier(d, c); }
  }

  lemma SecondsInRange(c: Civil)
    requires Valid(c)
    ensures SecondsOf(c) < SECOND_LIMIT
  {
    hide MonthStart, YearStart, YearDays, MonthDays;
    DayInYear(c);
    YearStartMonotone(c.year, 10000);
    YearStartClosed(10000);
    assert DaysOf(c) < 3652425;
  }

  lemma EpochSeconds()
    ensures Valid(Civil(1970, 1, 1, 0, 0, 0)) && SecondsOf(Civil(1970, 1, 1, 0, 0, 0)) == EPOCH
  {
    hide YearStart, YearDays, MonthStart;
    YearStartCeilings(1970);
    MonthStartClosed(1970, 1);
  }

  /** The Unix epoch is the first instant of 1970, and this is how it prints. */
  lemma EpochIs1970()
    ensures SecondsOf(Civil(1970, 1, 1, 0, 0, 0)) == EPOCH
    ensures FormatSeconds(EPOCH * SECOND) == "1970-01-01T00:00:00Z"
    ensures FormatNano(EPOCH * SECOND) == "1970-01-01T00:00:00Z"
    ensures FormatNano(EPOCH * SECOND + 120_000_000) == "1970-01-01T00:00:00.12Z"
  {
    hide YearStart, CivilOf, Padded, Trim, Print, SecondsOf;
    EpochSeconds();
    CivilOfSeconds(Civil(1970, 1, 1, 0, 0, 0));
    EpochPrints();
    TwelveHundredths();
  }

  lemma EpochPrints()
    ensures Print(Civil(1970, 1, 1, 0, 0, 0)) == "1970-01-01T00:00:00"
  {
    hide Padded;
    DigitByDigit(1, "", '1');
    DigitByDigit(19, "1", '9');
    DigitByDigit(197, "19", '7');
    DigitByDigit(1970, "197", '0');
    DigitByDigit(0, "", '0');
    DigitByDigit(1, "0", '1');
    DigitByDigit(0, "0", '0');
  }

  lemma DigitByDigit(n: nat, front: string, last: char)
    requires last == Digit(n % 10) && (front == "" || Padded(n / 10, |front|) == front)
    ensures Padded(n, |front| + 1) == front + [last]
  {
  }

  lemma TwelveHundredths()
    ensures Trim(Padded(120_000_000, 9)) == "12"
  {
    hide Padded, Trim;
    DigitByDigit(1, "", '1');
    DigitByDigit(12, "1", '2');
    assert Padded(12, 2) == "12";
    TrailingZeros(12, 2, 7);
    assert Pow10(7) == 10_000_000;
    assert Padded(120_000_000, 9) == "12" + Zeros(7);
    TrimStops("12", 7);
  }

  lemma {:induction false} TrailingZeros(n: nat, w: nat, k: nat)
    ensures Padded(n * Pow10(k), w + k) == Padded(n, w) + Zeros(k)
  {
    if k > 0 {
      var m := n * Pow10(k - 1);
      assert n * Pow10(k) == 10 * m;
      TrailingZeros(n, w, k - 1);
      assert Padded(10 * m, w + k) == Padded(m, w + k - 1) + [Digit(0)];
    } else {
      assert n * Pow10(0) == n;
    }
  }

  lemma {:induction false} TrimStops(s: string, k: nat)
    requires s != "" && s[|s| - 1] != '0'
    ensures Trim(s + Zeros(k)) == s
  {
    if k == 0 {
      assert s + Zeros(0) == s;
    } else {
      TrimStops(s, k - 1);
      assert (s + Zeros(k))[..|s| + k - 1] == s + Zeros(k - 1);
    }
  }

  /** Lexicographic order of the fields. */
  predicate CivilLess(a: Civil, b: Civil) {
    || a.year < b.year
    || (a.year == b.year && (a.month < b.month
       || (a.month == b.month && (a.day < b.day
          || (a.day == b.day && (a.hour < b.hour
             || (a.hour == b.hour && (a.minute < b.minute
                || (a.minute == b.minute && a.second < b.second)))))))))
  }

  lemma DayInYear(c: Civil)
    requires Valid(c)
    ensures MonthStart(c.year, c.month) + (c.day - 1) < YearDays(c.year)
  {
    MonthsFillYear(c.year);
    MonthStartMonotone(c.year, c.month, 13);
  }

  lemma CivilLessMeansEarlier(a: Civil, b: Civil)
    requires Valid(a) && Valid(b) && CivilLess(a, b)
    ensures SecondsOf(a) < SecondsOf(b)
  {
    if a.year < b.year {
      YearStartMonotone(a.year, b.year);
      DayInYear(a);
      assert DaysOf(a) < DaysOf(b);
    } else if a.month < b.month {
      MonthStartMonotone(a.year, a.month, b.month);
      assert DaysOf(a) < DaysOf(b);
    }
  }

  lemma CivilOrder(s: nat, t: nat)
    requires s < SECOND_LIMIT && t < SECOND_LIMIT
    ensures CivilLess(CivilOf(s), CivilOf(t)) <==> s < t
  {
    CivilOfInverts(s);
    CivilOfInverts(t);
    var a, b := CivilOf(s), CivilOf(t);
    if CivilLess(a, b) {
      CivilLessMeansEarlier(a, b);
    } else if CivilLess(b, a) {
      CivilLessMeansEarlier(b, a);
    } else {
      assert a == b;
    }
  }

  // ------------------------------------------------------------ printing whole seconds

  function Clock(c: Civil): string {
    Padded(c.hour, 2) + (":" + (Padded(c.minute, 2) + (":" + Padded(c.second, 2))))
  }

  /** yyyy-mm-ddThh:mm:ss, 19 characters. */
  function Print(c: Civil): string {
    Padded(c.year, 4) + ("-" + (Padded(c.month, 2) + ("-" + (Padded(c.day, 2) + ("T" + Clock(c))))))
  }

  lemma FieldsFit(c: Civil)
    requires Valid(c)
    ensures Pow10(2) == 100 && Pow10(4) == 10000
    ensures c.year < Pow10(4) && c.month < Pow10(2) && c.day < Pow10(2)
    ensures c.hour < Pow10(2) && c.minute < Pow10(2) && c.second < Pow10(2)
  {
  }

  predicate ClockLess(a: Civil, b: Civil) {
    a.hour < b.hour || (a.hour == b.hour && (a.minute < b.minute || (a.minute == b.minute && a.second < b.second)))
  }

  /** One numeric field, a separator, and the rest: order and equality go field by field. */
  lemma FieldOrder(n: nat, m: nat, w: nat, sep: string, x: string, y: string)
    requires n < Pow10(w) && m < Pow10(w)
    ensures Less(Padded(n, w) + (sep + x), Padded(m, w) + (sep + y)) <==> n < m || (n == m && Less(x, y))
  {
    LessConcat(Padded(n, w), Padded(m, w), sep + x, sep + y);
    LessPrefix(sep, x, y);
    PaddedOrder(n, m, w);
    PaddedInjective(n, m, w);
  }

  lemma ClockOrder(a: Civil, b: Civil)
    requires Valid(a) && Valid(b)
    ensures Less(Clock(a), Clock(b)) <==> ClockLess(a, b)
  {
    hide Less, Padded, Valid, Pow10;
    FieldsFit(a);
    FieldsFit(b);
    FieldOrder(a.hour, b.hour, 2, ":", Padded(a.minute, 2) + (":" + Padded(a.second, 2)),
      Padded(b.minute, 2) + (":" + Padded(b.second, 2)));
    FieldOrder(a.minute, b.minute, 2, ":", Padded(a.second, 2), Padded(b.second, 2));
    PaddedOrder(a.second, b.second, 2);
  }

  lemma PrintOrder(a: Civil, b: Civil)
    requires Valid(a) && Valid(b)
    ensures Less(Print(a), Print(b)) <==> CivilLess(a, b)
  {
    hide Less, Padded, Valid, Pow10, Clock;
    FieldsFit(a);
    FieldsFit(b);
    ClockOrder(a, b);
    FieldOrder(a.day, b.day, 2, "T", Clock(a), Clock(b));
    FieldOrder(a.month, b.month, 2, "-", Padded(a.day, 2) + ("T" + Clock(a)), Padded(b.day, 2) + ("T" + Clock(b)));
    FieldOrder(a.year, b.year, 4, "-", Padded(a.month, 2) + ("-" + (Padded(a.day, 2) + ("T" + Clock(a)))),
               Padded(b.month, 2) + ("-" + (Padded(b.day, 2) + ("T" + Clock(b)))));
  }

  lemma PrintLength(c: Civil)
    ensures |Print(c)| == 19
  {
  }

  // ------------------------------------------------------------ instants

  /** Instants a four-digit year can name. */
  predicate InRange(t: Time) {
    0 <= t < SECOND_LIMIT * SECOND
  }

  /** Whole seconds since the start of year 0. */
  function Seconds(t: Time): nat
    requires t >= 0
  {
    t / SECOND
  }

  /** Seconds from the start of year 0 to the Unix epoch. */
  const EPOCH: nat := 62_167_219_200

  function Unix(t: Time): int
    requires t >= 0
  {
    Seconds(t) - EPOCH
  }

  lemma RangeSeconds(t: Time)
    requires InRange(t)
    ensures Seconds(t) < SECOND_LIMIT
  {
  }

  /** time.RFC3339 in UTC: the fraction is dropped. */
  function FormatSeconds(t: Time): string
    requires t >= 0
  {
    Print(CivilOf(Seconds(t))) + "Z"
  }

  /** Texts of whole seconds are ordered as the seconds are. */
  lemma FormatOrder(s: Time, t: Time)
    requires InRange(s) && InRange(t)
    ensures |FormatSeconds(s)| == |FormatSeconds(t)| == 20
    ensures Less(FormatSeconds(s), FormatSeconds(t)) <==> Seconds(s) < Seconds(t)
    ensures FormatSeconds(s) == FormatSeconds(t) <==> Seconds(s) == Seconds(t)
  {
    hide Print, CivilOf, Valid, Seconds;
    RangeSeconds(s);
    RangeSeconds(t);
    var a, b := CivilOf(Seconds(s)), CivilOf(Seconds(t));
    CivilOfInverts(Seconds(s));
    CivilOfInverts(Seconds(t));
    CivilOrder(Seconds(s), Seconds(t));
    PrintOrder(a, b);
    PrintLength(a);
    PrintLength(b);
    LessConcat(Print(a), Print(b), "Z", "Z");
    LessIrreflexive("Z");
    LessIrreflexive(FormatSeconds(s));
    if Seconds(s) > Seconds(t) {
      CivilOrder(Seconds(t), Seconds(s));
      PrintOrder(b, a);
      LessConcat(Print(b), Print(a), "Z", "Z");
    }
  }

  // ------------------------------------------------------------ printing nanoseconds, parsing

  function Trim(s: string): string {
    if s != "" && s[|s| - 1] == '0' then Trim(s[..|s| - 1]) else s
  }

  function Nanos(t: Time): nat
    requires t >= 0
  {
    t % SECOND
  }

  /** The fraction of a second without its trailing zeros, absent when it is zero. */
  function Fraction(n: nat): string {
    if n == 0 then "" else "." + Trim(Padded(n, 9))
  }

  /** time.RFC3339Nano in UTC. */
  function FormatNano(t: Time): string
    requires t >= 0
  {
    Print(CivilOf(Seconds(t))) + (Fraction(Nanos(t)) + "Z")
  }

  function Zeros(k: nat): (s: string)
    ensures |s| == k && AllDigits(s)
  {
    if k == 0 then "" else Zeros(k - 1) + "0"
  }

  /** The first nine digits of a fraction, filled up with zeros. */
  function NineDigits(s: string): (r: string)
    requires AllDigits(s)
    ensures |r| == 9 && AllDigits(r)
  {
    if |s| >= 9 then s[..9] else s + Zeros(9 - |s|)
  }

  function ParseFraction(s: string): Option<nat> {
    if s == "" then Some(0)
    else if s[0] == '.' && |s| > 1 && AllDigits(s[1..]) then Some(Value(NineDigits(s[1..])))
    else None
  }

  function ParseCivil(s: string): Option<Civil>
    requires |s| == 19
  {
    if s[4] == '-' && s[7] == '-' && s[10] == 'T' && s[13] == ':' && s[16] == ':'
       && AllDigits(s[..4]) && AllDigits(s[5..7]) && AllDigits(s[8..10])
       && AllDigits(s[11..13]) && AllDigits(s[14..16]) && AllDigits(s[17..])
    then
      var c := Civil(Value(s[..4]), Value(s[5..7]), Value(s[8..10]), Value(s[11..13]), Value(s[14..16]),
        Value(s[17..]));
      if Valid(c) then Some(c) else None
    else
      None
  }

  /** time.Parse of a UTC timestamp. */
  function Parse(s: string): Option<Time> {
    if |s| < 20 || s[|s| - 1] != 'Z' then
      None
    else
      var c := ParseCivil(s[..19]);
      var f := ParseFraction(s[19..|s| - 1]);
      if c.None? || f.None? then None else Some(SecondsOf(c.value) * SECOND + f.value)
  }

  lemma {:induction false} TrimZeros(s: string)
    ensures |Trim(s)| <= |s| && Trim(s) + Zeros(|s| - |Trim(s)|) == s
  {
    if s != "" && s[|s| - 1] == '0' {
      TrimZeros(s[..|s| - 1]);
      assert s == s[..|s| - 1] + "0";
    }
  }

  lemma {:induction false} ZerosValue(k: nat)
    ensures Value(Zeros(k)) == 0
  {
    if k > 0 {
      ZerosValue(k - 1);
      assert Zeros(k)[..k - 1] == Zeros(k - 1);
    }
  }

  lemma NinePlaces()
    ensures Pow10(9) == SECOND
  {
  }

  /** A non-zero fraction keeps at least one digit, and the dropped zeros can be put back. */
  lemma TrimmedDigits(p: string)
    requires |p| == 9 && AllDigits(p) && Value(p) > 0
    ensures Trim(p) != "" && AllDigits(Trim(p)) && NineDigits(Trim(p)) == p
  {
    hide Value, Trim, Pow10;
    TrimZeros(p);
    TrimDigits(p);
    ZerosValue(9);
    assert "" + Zeros(9) == Zeros(9);
    assert Trim(p) != "";
    if |Trim(p)| == 9 {
      assert Zeros(0) == "";
      assert Trim(p)[..9] == Trim(p);
    }
  }

  lemma {:induction false} TrimDigits(s: string)
    requires AllDigits(s)
    ensures AllDigits(Trim(s))
  {
    if s != "" && s[|s| - 1] == '0' { TrimDigits(s[..|s| - 1]); }
  }

  /** Without their trailing zeros, two digit texts of one length are in order whatever follows
      them, unless the smaller one is a prefix of the other. */
  lemma TrimmedLess(p: string, q: string, x: string, y: string)
    requires |p| == |q| && AllDigits(p) && AllDigits(q) && Less(p, q) && !(Trim(p) <= Trim(q))
    ensures Less(Trim(p) + x, Trim(q) + y)
  {
    hide Less, Trim;
    var a, b := Trim(p), Trim(q);
    TrimZeros(p);
    TrimZeros(q);
    var i := FirstDifference(p, q);
    TrailingZero(q, b, i);
    assert p[..|a|] == a && q[..|b|] == b;
    PrefixUpTo(p, a, q, b, i);
    var s, t := a + x, b + y;
    assert s[..i] == p[..i] && t[..i] == q[..i] && s[i] == p[i] && t[i] == q[i];
    DifferenceDecides(s, t, i);
  }

  lemma {:induction false} TrailingZero(q: string, b: string, i: nat)
    requires |b| <= |q| && q == b + Zeros(|q| - |b|) && i < |q|
    ensures i >= |b| ==> q[i] == '0'
  {
    if |b| <= i < |q| - 1 {
      var n := |q| - 1;
      assert Zeros(|q| - |b|) == Zeros(n - |b|) + "0";
      assert q[..n] == b + Zeros(n - |b|);
      TrailingZero(q[..n], b, i);
    }
  }

  lemma PrefixUpTo(p: string, a: string, q: string, b: string, i: nat)
    requires a <= p && b <= q && i <= |p| && i <= |b| && p[..i] == q[..i]
    ensures |a| <= i ==> a <= b
  {
    if |a| <= i { assert a == p[..i][..|a|] == q[..i][..|a|] == b[..|a|]; }
  }

  /** If it is a prefix, the letter after it is greater than the digit in its place. */
  lemma PrefixIsGreater(a: string, b: string, x: string, y: string)
    requires a <= b && a != b && b[|a|] < 'Z'
    ensures !Less(a + ("Z" + x), b + y)
  {
    var r := b[|a|..];
    assert b == a + r;
    assert b + y == a + (r + y);
    LessPrefix(a, "Z" + x, r + y);
  }

  /** Inside one second the texts order as the instants do unless the earlier fraction is a prefix
      of the later one. */
  lemma FractionOrder(n: nat, m: nat, x: string, y: string)
    requires n < m < SECOND
    ensures Less(Fraction(n) + ("Z" + x), Fraction(m) + ("Z" + y)) <==> !(Fraction(n) <= Fraction(m))
  {
    hide Less, Fraction;
    if Fraction(n) <= Fraction(m) {
      FractionContinues(n, m);
      PrefixIsGreater(Fraction(n), Fraction(m), x, "Z" + y);
    } else {
      FractionLess(n, m, "Z" + x, "Z" + y);
    }
  }

  /** A longer fraction goes on with a digit, or with the point. */
  lemma FractionContinues(n: nat, m: nat)
    requires n < m < SECOND && Fraction(n) <= Fraction(m)
    ensures Fraction(n) != Fraction(m) && Fraction(m)[|Fraction(n)|] < 'Z'
  {
    hide Trim, Padded, Value, Pow10;
    NinePlaces();
    var p, q := Padded(n, 9), Padded(m, 9);
    PaddedInjective(n, m, 9);
    TrimInjective(p, q);
    TrimDigits(q);
    DottedDigits(Trim(q));
    assert n > 0 ==> Fraction(n)[1..] == Trim(p);
    assert Fraction(m)[1..] == Trim(q);
  }

  lemma DottedDigits(s: string)
    requires AllDigits(s)
    ensures forall k :: 0 <= k < |s| + 1 ==> ("." + s)[k] < 'Z'
  {
  }

  lemma FractionLess(n: nat, m: nat, x: string, y: string)
    requires n < m < SECOND && !(Fraction(n) <= Fraction(m))
    ensures Less(Fraction(n) + x, Fraction(m) + y)
  {
    hide Less, Trim, Padded, Value, Pow10;
    NinePlaces();
    var p, q := Padded(n, 9), Padded(m, 9);
    PaddedOrder(n, m, 9);
    DottedPrefix(Trim(p), Trim(q));
    TrimmedLess(p, q, x, y);
    LessPrefix(".", Trim(p) + x, Trim(q) + y);
    assert Fraction(n) + x == "." + (Trim(p) + x) && Fraction(m) + y == "." + (Trim(q) + y);
  }

  lemma DottedPrefix(a: string, b: string)
    ensures "." + a <= "." + b <==> a <= b
  {
    assert ("." + a)[1..] == a && ("." + b)[1..] == b;
    if "." + a <= "." + b { assert ("." + b)[1..][..|a|] == ("." + b)[..|a| + 1][1..]; }
  }

  lemma TrimInjective(p: string, q: string)
    requires |p| == |q|
    ensures Trim(p) == Trim(q) ==> p == q
  {
    TrimZeros(p);
    TrimZeros(q);
  }

  lemma FractionRoundTrip(n: nat)
    requires n < SECOND
    ensures ParseFraction(Fraction(n)) == Some(n)
  {
    hide Trim, NineDigits, Padded, Value, Pow10;
    NinePlaces();
    ValuePadded(n, 9);
    if n > 0 {
      TrimmedDigits(Padded(n, 9));
      assert Fraction(n)[1..] == Trim(Padded(n, 9));
    }
  }

  /** A printed fraction has no digit too many: it ends in a digit other than zero. */
  lemma FractionIsShortest(n: nat)
    requires 0 < n < SECOND
    ensures Fraction(n)[0] == '.' && 2 <= |Fraction(n)| <= 10 && Fraction(n)[|Fraction(n)| - 1] != '0'
  {
    hide Trim, Padded, Value, Pow10;
    NinePlaces();
    ValuePadded(n, 9);
    TrimmedDigits(Padded(n, 9));
    TrimZeros(Padded(n, 9));
    TrimEnds(Padded(n, 9));
  }

  lemma {:induction false} TrimEnds(s: string)
    ensures Trim(s) == "" || Trim(s)[|Trim(s)| - 1] != '0'
  {
    if s != "" && s[|s| - 1] == '0' { TrimEnds(s[..|s| - 1]); }
  }

  /** The parts of a field, a separator and a rest. */
  lemma Cut(s: string, x: string, sep: string, rest: string)
    requires s == x + (sep + rest) && |sep| == 1
    ensures |s| == |x| + 1 + |rest| && s[..|x|] == x && s[|x|] == sep[0] && s[|x| + 1..] == rest
  {
  }

  lemma SliceOfSlice(s: string, i: nat, rest: string, j: nat)
    requires i <= |s| && s[i..] == rest && j <= |rest|
    ensures s[i..i + j] == rest[..j] && s[i + j..] == rest[j..]
    ensures j < |rest| ==> s[i + j] == rest[j]
  {
  }

  lemma DateSlices(c: Civil, s: string)
    requires s == Print(c)
    ensures |s| == 19
    ensures s[..4] == Padded(c.year, 4) && s[4] == '-'
    ensures s[5..7] == Padded(c.month, 2) && s[7] == '-'
    ensures s[8..10] == Padded(c.day, 2) && s[10] == 'T'
    ensures s[11..] == Clock(c)
  {
    hide Padded;
    var t := Clock(c);
    var d := Padded(c.day, 2) + ("T" + t);
    var m := Padded(c.month, 2) + ("-" + d);
    Cut(s, Padded(c.year, 4), "-", m);
    Cut(m, Padded(c.month, 2), "-", d);
    Cut(d, Padded(c.day, 2), "T", t);
    SliceOfSlice(s, 5, m, 2);
    SliceOfSlice(s, 5, m, 3);
    SliceOfSlice(s, 8, d, 2);
    SliceOfSlice(s, 8, d, 3);
  }

  lemma ClockSlices(c: Civil, s: string)
    requires |s| == 19 && s[11..] == Clock(c)
    ensures s[11..13] == Padded(c.hour, 2) && s[13] == ':'
    ensures s[14..16] == Padded(c.minute, 2) && s[16] == ':'
    ensures s[17..] == Padded(c.second, 2)
  {
    hide Padded;
    var m := Padded(c.minute, 2) + (":" + Padded(c.second, 2));
    Cut(s[11..], Padded(c.hour, 2), ":", m);
    Cut(m, Padded(c.minute, 2), ":", Padded(c.second, 2));
    SliceOfSlice(s, 11, s[11..], 2);
    SliceOfSlice(s, 11, s[11..], 3);
    SliceOfSlice(s, 14, m, 2);
    SliceOfSlice(s, 14, m, 3);
  }

  lemma CivilRoundTrip(c: Civil)
    requires Valid(c)
    ensures |Print(c)| == 19 && ParseCivil(Print(c)) == Some(c)
  {
    hide Padded, Value, Print, Clock, Pow10, AllDigits;
    FieldsFit(c);
    var s := Print(c);
    DateSlices(c, s);
    ClockSlices(c, s);
    ValuePadded(c.year, 4);
    ValuePadded(c.month, 2);
    ValuePadded(c.day, 2);
    ValuePadded(c.hour, 2);
    ValuePadded(c.minute, 2);
    ValuePadded(c.second, 2);
  }

  /** Printing an instant with its trimmed fraction and parsing it gives the instant back. */
  lemma NanoRoundTrip(t: Time)
    requires InRange(t)
    ensures Parse(FormatNano(t)) == Some(t)
  {
    hide Print, CivilOf, Fraction, ParseCivil, ParseFraction, Valid;
    RangeSeconds(t);
    var c := CivilOf(Seconds(t));
    CivilOfInverts(Seconds(t));
    CivilRoundTrip(c);
    FractionRoundTrip(Nanos(t));
    var f := Fraction(Nanos(t));
    var s := FormatNano(t);
    assert s[..19] == Print(c);
    assert s[19..|s| - 1] == f;
    assert s[|s| - 1] == 'Z';
  }

  lemma NanoInjective(s: Time, t: Time)
    requires InRange(s) && InRange(t) && FormatNano(s) == FormatNano(t)
    ensures s == t
  {
    hide FormatNano, Parse;
    NanoRoundTrip(s);
    NanoRoundTrip(t);
  }

  lemma DigitsHaveNoHash(s: string)
    requires AllDigits(s)
    ensures '#' !in s
  {
  }

  lemma PrintHasNoHash(c: Civil)
    ensures '#' !in Print(c)
  {
  }

  /** A printed instant contains no separator of a key. */
  lemma NanoHasNoHash(t: Time)
    requires t >= 0
    ensures '#' !in FormatNano(t)
  {
    hide AllDigits, Padded, CivilOf, Print, Trim;
    PrintHasNoHash(CivilOf(Seconds(t)));
    TrimDigits(Padded(Nanos(t), 9));
    DigitsHaveNoHash(Trim(Padded(Nanos(t), 9)));
  }
}
