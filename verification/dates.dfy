/** The client's date rendering `[day]-[month]-[year]`: day and month as two
    zero-padded digits, the year as four zero-padded digits. Years are
    restricted to 0..9999, the range in which the year field is exactly
    four digits wide and carries no sign. */
module Dates {
  import opened Optional
  import opened Text

  /** A proleptic Gregorian calendar date. */
  datatype Date = Date(year: int, month: int, day: int)

  predicate IsLeapYear(y: int)
  {
    y % 4 == 0 && (y % 100 != 0 || y % 400 == 0)
  }

  function DaysInMonth(y: int, m: int): int
    requires 1 <= m <= 12
  {
    if m == 2 then (if IsLeapYear(y) then 29 else 28)
    else if m == 4 || m == 6 || m == 9 || m == 11 then 30
    else 31
  }

  predicate ValidDate(d: Date)
  {
    && 0 <= d.year <= 9999
    && 1 <= d.month <= 12
    && 1 <= d.day <= DaysInMonth(d.year, d.month)
  }

  /** Two digit characters. */
  predicate IsDigits2(s: string)
  {
    |s| == 2 && IsDigit(s[0]) && IsDigit(s[1])
  }

  function Value2(s: string): (v: nat)
    requires IsDigits2(s)
    ensures v < 100
  {
    10 * DigitValue(s[0]) + DigitValue(s[1])
  }

  /** `n` as exactly two digits, zero-padded on the left. */
  function Pad2(n: nat): (s: string)
    requires n < 100
    ensures IsDigits2(s)
    ensures Value2(s) == n
  {
    DigitCharValue(n / 10);
    DigitCharValue(n % 10);
    [DigitChar(n / 10), DigitChar(n % 10)]
  }

  /** Four digit characters. */
  predicate IsDigits4(s: string)
  {
    |s| == 4 && IsDigits2(s[0..2]) && IsDigits2(s[2..4])
  }

  function Value4(s: string): (v: nat)
    requires IsDigits4(s)
    ensures v < 10000
  {
    100 * Value2(s[0..2]) + Value2(s[2..4])
  }

  /** `n` as exactly four digits, zero-padded on the left. */
  function Pad4(n: nat): (s: string)
    requires n < 10000
    ensures IsDigits4(s)
    ensures Value4(s) == n
  {
    var s := Pad2(n / 100) + Pad2(n % 100);
    assert s[0..2] == Pad2(n / 100) && s[2..4] == Pad2(n % 100);
    s
  }

  /** Any two digits are the padded rendering of their own value. */
  lemma Pad2Canonical(s: string)
    requires IsDigits2(s)
    ensures Pad2(Value2(s)) == s
  {
    var v := Value2(s);
    assert v / 10 == DigitValue(s[0]) && v % 10 == DigitValue(s[1]);
  }

  /** Any four digits are the padded rendering of their own value. */
  lemma Pad4Canonical(s: string)
    requires IsDigits4(s)
    ensures Pad4(Value4(s)) == s
  {
    var v := Value4(s);
    assert v / 100 == Value2(s[0..2]) && v % 100 == Value2(s[2..4]);
    Pad2Canonical(s[0..2]);
    Pad2Canonical(s[2..4]);
    assert s == s[0..2] + s[2..4];
  }

  /** The rendering of COINGECKO_DATE_FORMAT: `dd-mm-yyyy`. */
  function FormatDate(d: Date): (r: string)
    requires ValidDate(d)
    ensures |r| == 10 && r[2] == '-' && r[5] == '-'
    ensures IsDigits2(r[0..2]) && IsDigits2(r[3..5]) && IsDigits4(r[6..10])
    ensures Value2(r[0..2]) == d.day
    ensures Value2(r[3..5]) == d.month
    ensures Value4(r[6..10]) == d.year
  {
    var dd, mm, yyyy := Pad2(d.day), Pad2(d.month), Pad4(d.year);
    var r := dd + "-" + mm + "-" + yyyy;
    assert r[0..2] == dd && r[3..5] == mm && r[6..10] == yyyy;
    r
  }

  /** Reads a `dd-mm-yyyy` string back into a valid date. */
  function ParseDate(s: string): Option<Date>
  {
    if |s| == 10 && s[2] == '-' && s[5] == '-'
       && IsDigits2(s[0..2]) && IsDigits2(s[3..5]) && IsDigits4(s[6..10])
    then
      var d := Date(Value4(s[6..10]), Value2(s[3..5]), Value2(s[0..2]));
      if ValidDate(d) then Some(d) else None
    else None
  }

  /** Every valid date is rendered to a string that parses back to it. */
  lemma DateRoundTrip(d: Date)
    requires ValidDate(d)
    ensures ParseDate(FormatDate(d)) == Some(d)
  {
  }

  /** Conversely, every string that parses is the rendering of its date:
      the format has exactly one spelling per date. */
  lemma DateCanonical(s: string)
    requires ParseDate(s).Some?
    ensures FormatDate(ParseDate(s).value) == s
  {
    var d := ParseDate(s).value;
    var dd, mm, yyyy := s[0..2], s[3..5], s[6..10];
    Pad2Canonical(dd);
    Pad2Canonical(mm);
    Pad4Canonical(yyyy);
    assert s == dd + "-" + mm + "-" + yyyy;
    assert FormatDate(d) == Pad2(d.day) + "-" + Pad2(d.month) + "-" + Pad4(d.year);
  }

  /** The date quoted with the format: 30 December 2017. */
  lemma DocumentedExample()
    ensures FormatDate(Date(2017, 12, 30)) == "30-12-2017"
  {
  }

  /** A single-digit day is zero-padded: 1 October 2022. */
  lemma ZeroPaddedExample()
    ensures FormatDate(Date(2022, 10, 1)) == "01-10-2022"
  {
  }
}
