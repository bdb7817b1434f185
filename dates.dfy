/** Calendar dates as the project exchanges them: `YYYY-MM-DD` text (Python's
    `date.isoformat()` and `datetime.fromisoformat(...).date()`, and the date
    strings the browser parses with `new Date(...)`), and whole day numbers for
    the timeline arithmetic. Times of day and time zones are not modelled. */
module Dates {
  import opened Common

  datatype Date = Date(year: int, month: int, day: int)

  predicate IsLeapYear(y: int) {
    y % 4 == 0 && (y % 100 != 0 || y % 400 == 0)
  }

  function DaysInMonth(y: int, m: int): (n: int)
    requires 1 <= m <= 12
    ensures 28 <= n <= 31
    ensures m == 2 ==> (n == 29 <==> IsLeapYear(y))
  {
    if m == 2 then (if IsLeapYear(y) then 29 else 28)
    else if m == 4 || m == 6 || m == 9 || m == 11 then 30
    else 31
  }

  /** The dates Python's `date` can hold (years 1 to 9999). */
  predicate Valid(d: Date) {
    1 <= d.year <= 9999 && 1 <= d.month <= 12 && 1 <= d.day <= DaysInMonth(d.year, d.month)
  }

  /** A date Python's `date` can represent. */
  type IsoDate = d: Date | Valid(d) witness Date(1970, 1, 1)

  predicate IsDigit(c: char) {
    '0' <= c <= '9'
  }

  function DigitChar(n: int): (c: char)
    requires 0 <= n <= 9
    ensures IsDigit(c) && DigitValue(c) == n
  {
    (48 + n) as char
  }

  function DigitValue(c: char): int
    requires IsDigit(c)
  {
    c as int - 48
  }

  function Pad2(n: int): (s: string)
    requires 0 <= n < 100
    ensures |s| == 2
  {
    [DigitChar(n / 10), DigitChar(n % 10)]
  }

  function Pad4(n: int): (s: string)
    requires 0 <= n < 10000
    ensures |s| == 4
  {
    [DigitChar(n / 1000), DigitChar(n / 100 % 10), DigitChar(n / 10 % 10), DigitChar(n % 10)]
  }

  /** `date.isoformat()`: four-digit year, two-digit month and day, dash-separated. */
  function IsoFormat(d: Date): (s: string)
    requires Valid(d)
    ensures |s| == 10 && s[4] == '-' && s[7] == '-'
  {
    Pad4(d.year) + "-" + Pad2(d.month) + "-" + Pad2(d.day)
  }

  predicate DigitsAt(s: string)
    requires |s| == 10
  {
    IsDigit(s[0]) && IsDigit(s[1]) && IsDigit(s[2]) && IsDigit(s[3]) &&
    IsDigit(s[5]) && IsDigit(s[6]) && IsDigit(s[8]) && IsDigit(s[9])
  }

  /** Parses `YYYY-MM-DD`; `None` for any other text or an impossible date
      (the `ValueError` branch of the source). */
  function ParseIso(s: string): (r: Option<Date>)
    ensures r.Some? ==> Valid(r.value)
  {
    if |s| == 10 && s[4] == '-' && s[7] == '-' && DigitsAt(s) then
      var date := FieldsOf(s);
      if Valid(date) then Some(date) else None
    else None
  }

  function FieldsOf(s: string): Date
    requires |s| == 10 && DigitsAt(s)
  {
    Date(1000 * DigitValue(s[0]) + 100 * DigitValue(s[1]) + 10 * DigitValue(s[2]) + DigitValue(s[3]),
         10 * DigitValue(s[5]) + DigitValue(s[6]),
         10 * DigitValue(s[8]) + DigitValue(s[9]))
  }

  lemma DigitRoundTrip(c: char)
    requires IsDigit(c)
    ensures DigitChar(DigitValue(c)) == c
  {
  }

  lemma Pad2Digits(a: int, b: int)
    requires 0 <= a <= 9 && 0 <= b <= 9
    ensures Pad2(10 * a + b) == [DigitChar(a), DigitChar(b)]
  {
  }

  lemma Pad4Digits(a: int, b: int, c: int, d: int)
    requires 0 <= a <= 9 && 0 <= b <= 9 && 0 <= c <= 9 && 0 <= d <= 9
    ensures Pad4(1000 * a + 100 * b + 10 * c + d) == [DigitChar(a), DigitChar(b), DigitChar(c), DigitChar(d)]
  {
    var n := 1000 * a + 100 * b + 10 * c + d;
    DivMod(n, 1000, a, 100 * b + 10 * c + d);
    DivMod(n, 100, 10 * a + b, 10 * c + d);
    DivMod(10 * a + b, 10, a, b);
    DivMod(n, 10, 100 * a + 10 * b + c, d);
    DivMod(100 * a + 10 * b + c, 10, 10 * a + b, c);
  }

  /** Euclidean division of `q * k + r` by `k` when `r` is a remainder. */
  lemma DivMod(n: int, k: int, q: int, r: int)
    requires k > 0 && 0 <= r < k && n == q * k + r
    ensures n / k == q && n % k == r
  {
    var q0, r0 := n / k, n % k;
    assert (q - q0) * k == r0 - r;
    FactorLess(q - q0, 1, k);
    FactorLess(-1, q - q0, k);
  }

  lemma Pad2Value(n: int)
    requires 0 <= n < 100
    ensures 10 * DigitValue(Pad2(n)[0]) + DigitValue(Pad2(n)[1]) == n
  {
  }

  lemma Pad4Value(n: int)
    requires 0 <= n < 10000
    ensures var p := Pad4(n);
      1000 * DigitValue(p[0]) + 100 * DigitValue(p[1]) + 10 * DigitValue(p[2]) + DigitValue(p[3]) == n
  {
    assert n / 100 % 10 == (n / 10) / 10 % 10;
    assert n == 10 * (n / 10) + n % 10;
    assert n / 10 == 10 * (n / 100) + n / 10 % 10;
    assert n / 100 == 10 * (n / 1000) + n / 100 % 10;
  }

  /** Every accepted text is the canonical form of the date it denotes. */
  lemma {:induction false} ParseIsoCanonical(s: string)
    requires ParseIso(s).Some?
    ensures IsoFormat(ParseIso(s).value) == s
  {
    var d := FieldsOf(s);
    Pad4Digits(DigitValue(s[0]), DigitValue(s[1]), DigitValue(s[2]), DigitValue(s[3]));
    Pad2Digits(DigitValue(s[5]), DigitValue(s[6]));
    Pad2Digits(DigitValue(s[8]), DigitValue(s[9]));
    DigitRoundTrip(s[0]); DigitRoundTrip(s[1]); DigitRoundTrip(s[2]); DigitRoundTrip(s[3]);
    DigitRoundTrip(s[5]); DigitRoundTrip(s[6]); DigitRoundTrip(s[8]); DigitRoundTrip(s[9]);
    var t := IsoFormat(d);
    assert t == s[0..4] + "-" + s[5..7] + "-" + s[8..10];
    assert t == s;
  }

  /** Formatting and parsing are inverse on valid dates. */
  lemma {:induction false} ParseFormat(d: Date)
    requires Valid(d)
    ensures ParseIso(IsoFormat(d)) == Some(d)
  {
    var s := IsoFormat(d);
    Pad4Value(d.year);
    Pad2Value(d.month);
    Pad2Value(d.day);
    assert s[0..4] == Pad4(d.year) && s[5..7] == Pad2(d.month) && s[8..10] == Pad2(d.day);
    assert DigitsAt(s);
    assert FieldsOf(s) == d;
  }

  /** A text parses exactly when it is the canonical form of a valid date. */
  lemma ParseIsoExactly(s: string, d: Date)
    ensures ParseIso(s) == Some(d) <==> Valid(d) && s == IsoFormat(d)
  {
    if Valid(d) && s == IsoFormat(d) {
      ParseFormat(d);
    }
    if ParseIso(s) == Some(d) {
      ParseIsoCanonical(s);
    }
  }

  /** Days in the years before `y` (proleptic Gregorian calendar). */
  function DaysBeforeYear(y: int): int
    requires y >= 1
  {
    365 * (y - 1) + (y - 1) / 4 - (y - 1) / 100 + (y - 1) / 400
  }

  function DaysBeforeMonth(y: int, m: int): int
    requires 1 <= m <= 12
  {
    [0, 31, 59, 90, 120, 151, 181, 212, 243, 273, 304, 334][m - 1] + (if m > 2 && IsLeapYear(y) then 1 else 0)
  }

  /** The day number of a date: 0 for 0001-01-01, one more for each later day. */
  function DayNumber(d: Date): int
    requires d.year >= 1 && 1 <= d.month <= 12
  {
    DaysBeforeYear(d.year) + DaysBeforeMonth(d.year, d.month) + d.day - 1
  }

  /** JavaScript `new Date(y, m + k, 1)`: the first day of the month `k`
      months after month `m` (months counted from 1 here). */
  function FirstOfMonthAfter(y: int, m: int, k: nat): (d: Date)
    requires y >= 1 && 1 <= m <= 12
    ensures d.year >= y && 1 <= d.month <= 12 && d.day == 1
    decreases k
  {
    if k == 0 then Date(y, m, 1)
    else if m == 12 then FirstOfMonthAfter(y + 1, 1, k - 1)
    else FirstOfMonthAfter(y, m + 1, k - 1)
  }

  lemma {:induction false} YearLength(y: int)
    requires y >= 1
    ensures DaysBeforeYear(y + 1) - DaysBeforeYear(y) == if IsLeapYear(y) then 366 else 365
  {
    assert y / 4 - (y - 1) / 4 == if y % 4 == 0 then 1 else 0;
    assert y / 100 - (y - 1) / 100 == if y % 100 == 0 then 1 else 0;
    assert y / 400 - (y - 1) / 400 == if y % 400 == 0 then 1 else 0;
  }

  /** The first of the next month comes exactly one month length later. */
  lemma {:induction false} NextMonthStart(y: int, m: int)
    requires y >= 1 && 1 <= m <= 12
    ensures DayNumber(FirstOfMonthAfter(y, m, 1)) == DayNumber(Date(y, m, 1)) + DaysInMonth(y, m)
  {
    if m == 12 {
      YearLength(y);
    }
  }
}
