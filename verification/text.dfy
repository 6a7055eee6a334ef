/** String rendering used to build query values: decimal integers (Rust's
    `to_string` on integers and booleans), `join` of a slice of strings,
    and the parsers that invert them. Strings are `seq<char>`. */
module Text {
  import opened Optional

  predicate IsDigit(c: char)
  {
    '0' <= c <= '9'
  }

  predicate AllDigits(s: string)
  {
    forall i :: 0 <= i < |s| ==> IsDigit(s[i])
  }

  function DigitChar(d: nat): (c: char)
    requires d < 10
    ensures IsDigit(c)
  {
    ('0' as int + d) as char
  }

  function DigitValue(c: char): (d: nat)
    requires IsDigit(c)
    ensures d < 10
    ensures DigitChar(d) == c
  {
    c as int - '0' as int
  }

  lemma DigitCharValue(d: nat)
    requires d < 10
    ensures DigitValue(DigitChar(d)) == d
  {
  }

  // ---------------------------------------------------------------------
  // Booleans: Rust renders `true`/`false`, and so does the query serializer.
  // ---------------------------------------------------------------------

  function BoolToString(b: bool): string
  {
    if b then "true" else "false"
  }

  function ParseBool(s: string): Option<bool>
  {
    if s == "true" then Some(true)
    else if s == "false" then Some(false)
    else None
  }

  /** The two renderings are distinct and read back to the flag they came from. */
  lemma BoolRoundTrip(b: bool, s: string)
    ensures ParseBool(BoolToString(b)) == Some(b)
    ensures ParseBool(s) == Some(b) ==> BoolToString(b) == s
  {
  }

  // ---------------------------------------------------------------------
  // Decimal rendering of integers (Rust's `i64::to_string`)
  // ---------------------------------------------------------------------

  /** Decimal digits of `n`, most significant first, without leading zeros. */
  function NatToDecimal(n: nat): (s: string)
    ensures |s| >= 1
    ensures AllDigits(s)
    ensures s[0] == '0' ==> n == 0
    decreases n
  {
    if n < 10 then [DigitChar(n)] else NatToDecimal(n / 10) + [DigitChar(n % 10)]
  }

  /** The number a string of digits denotes (the empty string denotes 0). */
  function DecimalValue(s: string): nat
    requires AllDigits(s)
  {
    if |s| == 0 then 0 else DecimalValue(s[..|s| - 1]) * 10 + DigitValue(s[|s| - 1])
  }

  /** A canonical decimal: at least one digit and no leading zero. */
  predicate IsCanonicalDecimal(s: string)
  {
    |s| >= 1 && AllDigits(s) && (s[0] != '0' || |s| == 1)
  }

  /** Rendering of a signed integer: a minus sign, then the magnitude. */
  function IntToDecimal(i: int): (s: string)
    ensures |s| >= 1
  {
    if i < 0 then "-" + NatToDecimal(-i) else NatToDecimal(i)
  }

  /** Reads back exactly the strings that `IntToDecimal` produces. */
  function ParseInt(s: string): Option<int>
  {
    if |s| >= 2 && s[0] == '-' && IsCanonicalDecimal(s[1..]) && s[1..] != "0" then
      Some(-(DecimalValue(s[1..]) as int))
    else if IsCanonicalDecimal(s) then
      Some(DecimalValue(s))
    else
      None
  }

  lemma {:induction false} DecimalRoundTrip(n: nat)
    ensures DecimalValue(NatToDecimal(n)) == n
    decreases n
  {
    var s := NatToDecimal(n);
    if n < 10 {
      assert s[..|s| - 1] == [];
      DigitCharValue(n);
    } else {
      var p := NatToDecimal(n / 10);
      assert s == p + [DigitChar(n % 10)];
      assert s[..|s| - 1] == p;
      DecimalRoundTrip(n / 10);
      DigitCharValue(n % 10);
    }
  }

  lemma {:induction false} LeadingDigitBound(s: string)
    requires |s| >= 1 && AllDigits(s)
    ensures DecimalValue(s) >= DigitValue(s[0])
    decreases |s|
  {
    if |s| > 1 {
      var p := s[..|s| - 1];
      assert p[0] == s[0];
      LeadingDigitBound(p);
    }
  }

  lemma {:induction false} CanonicalDecimalRoundTrip(s: string)
    requires IsCanonicalDecimal(s)
    ensures NatToDecimal(DecimalValue(s)) == s
    decreases |s|
  {
    var d := s[|s| - 1];
    if |s| == 1 {
      assert DecimalValue(s) == DecimalValue([]) * 10 + DigitValue(d);
    } else {
      var p := s[..|s| - 1];
      assert p[0] == s[0];
      LeadingDigitBound(p);
      var v := DecimalValue(s);
      assert v == DecimalValue(p) * 10 + DigitValue(d);
      assert v >= 10;
      assert v / 10 == DecimalValue(p) && v % 10 == DigitValue(d);
      CanonicalDecimalRoundTrip(p);
      assert s == p + [d];
    }
  }

  /** `ParseInt` inverts `IntToDecimal`, and `IntToDecimal` is the only way
      to obtain a string `ParseInt` accepts: renderings are canonical. */
  lemma IntDecimalRoundTrip(i: int, s: string)
    ensures ParseInt(IntToDecimal(i)) == Some(i)
    ensures ParseInt(s) == Some(i) ==> IntToDecimal(i) == s
  {
    ParseRendered(i);
    if ParseInt(s) == Some(i) {
      RenderParsed(s);
    }
  }

  lemma ParseRendered(i: int)
    ensures ParseInt(IntToDecimal(i)) == Some(i)
  {
    var t := IntToDecimal(i);
    if i < 0 {
      var m := NatToDecimal(-i);
      assert t == "-" + m && t[1..] == m;
      DecimalRoundTrip(-i);
      assert m != "0";
      assert IsCanonicalDecimal(m);
    } else {
      DecimalRoundTrip(i);
      assert t[0] != '-';
    }
  }

  lemma RenderParsed(s: string)
    requires ParseInt(s).Some?
    ensures IntToDecimal(ParseInt(s).value) == s
  {
    if |s| >= 2 && s[0] == '-' && IsCanonicalDecimal(s[1..]) && s[1..] != "0" {
      var m := s[1..];
      CanonicalDecimalRoundTrip(m);
      LeadingDigitBound(m);
      assert DecimalValue(m) != 0;
      assert s == "-" + m;
    } else {
      CanonicalDecimalRoundTrip(s);
    }
  }

  // ---------------------------------------------------------------------
  // Join (Rust's `[&str]::join`), character counting and splitting
  // ---------------------------------------------------------------------

  /** The elements of `xs` in order, with `sep` between neighbours. */
  function Join(xs: seq<string>, sep: string): (r: string)
    ensures |xs| == 0 ==> r == ""
    ensures |xs| >= 1 ==> xs[0] <= r
    ensures |xs| >= 1 ==> |xs[|xs| - 1]| <= |r| && r[|r| - |xs[|xs| - 1]|..] == xs[|xs| - 1]
    decreases |xs|
  {
    if |xs| == 0 then ""
    else if |xs| == 1 then xs[0]
    else
      var rest := Join(xs[1..], sep);
      var last := xs[|xs| - 1];
      assert xs[1..][|xs[1..]| - 1] == last;
      var r := xs[0] + sep + rest;
      assert r[|r| - |last|..] == rest[|rest| - |last|..];
      r
  }

  /** Number of occurrences of `c` in `s`. */
  function Count(s: string, c: char): nat
  {
    if |s| == 0 then 0 else (if s[0] == c then 1 else 0) + Count(s[1..], c)
  }

  function SumCounts(xs: seq<string>, c: char): nat
  {
    if |xs| == 0 then 0 else Count(xs[0], c) + SumCounts(xs[1..], c)
  }

  lemma {:induction false} CountConcat(a: string, b: string, c: char)
    ensures Count(a + b, c) == Count(a, c) + Count(b, c)
    decreases |a|
  {
    if |a| > 0 {
      assert (a + b)[1..] == a[1..] + b;
      CountConcat(a[1..], b, c);
    } else {
      assert a + b == b;
    }
  }

  lemma {:induction false} CountZero(s: string, c: char)
    ensures Count(s, c) == 0 <==> c !in s
    decreases |s|
  {
    if |s| > 0 {
      CountZero(s[1..], c);
      assert s == [s[0]] + s[1..];
    }
  }

  /** Joining N strings inserts exactly N - 1 separators: when the
      separator holds one `c`, every other `c` in the result comes from an
      element. */
  lemma {:induction false} JoinCount(xs: seq<string>, sep: string, c: char)
    requires |xs| >= 1
    requires Count(sep, c) == 1
    ensures Count(Join(xs, sep), c) == SumCounts(xs, c) + |xs| - 1
    decreases |xs|
  {
    if |xs| > 1 {
      CountConcat(xs[0] + sep, Join(xs[1..], sep), c);
      CountConcat(xs[0], sep, c);
      JoinCount(xs[1..], sep, c);
    }
  }

  /** Splits `s` at every occurrence of `c`; there is always at least one part. */
  function Split(s: string, c: char): (parts: seq<string>)
    ensures |parts| == Count(s, c) + 1
    ensures forall i :: 0 <= i < |parts| ==> c !in parts[i]
    decreases |s|
  {
    if |s| == 0 then [""]
    else
      var rest := Split(s[1..], c);
      if s[0] == c then [""] + rest
      else [[s[0]] + rest[0]] + rest[1..]
  }

  lemma {:induction false} SplitPrefix(a: string, t: string, c: char)
    requires c !in a
    ensures Split(a + t, c) == [a + Split(t, c)[0]] + Split(t, c)[1..]
    decreases |a|
  {
    if |a| > 0 {
      assert (a + t)[1..] == a[1..] + t;
      SplitPrefix(a[1..], t, c);
      assert [a[0]] + (a[1..] + Split(t, c)[0]) == a + Split(t, c)[0];
    } else {
      assert a + t == t;
      assert a + Split(t, c)[0] == Split(t, c)[0];
      assert Split(t, c) == [Split(t, c)[0]] + Split(t, c)[1..];
    }
  }

  lemma SplitSeparator(a: string, t: string, c: char)
    requires c !in a
    ensures Split(a + [c] + t, c) == [a] + Split(t, c)
  {
    assert a + [c] + t == a + ([c] + t);
    SplitPrefix(a, [c] + t, c);
    assert ([c] + t)[0] == c && ([c] + t)[1..] == t;
    assert Split([c] + t, c) == [""] + Split(t, c);
    assert a + "" == a;
  }

  /** Splitting at `c` undoes joining with `c`, as long as no element
      contains `c` itself. */
  lemma {:induction false} SplitJoin(xs: seq<string>, c: char)
    requires |xs| >= 1
    requires forall i :: 0 <= i < |xs| ==> c !in xs[i]
    ensures Split(Join(xs, [c]), c) == xs
    decreases |xs|
  {
    if |xs| == 1 {
      SplitPrefix(xs[0], "", c);
      assert xs[0] + "" == xs[0];
    } else {
      SplitSeparator(xs[0], Join(xs[1..], [c]), c);
      SplitJoin(xs[1..], c);
      assert xs == [xs[0]] + xs[1..];
    }
  }

  lemma {:induction false} NoneContain(xs: seq<string>, c: char)
    requires forall i :: 0 <= i < |xs| ==> c !in xs[i]
    ensures SumCounts(xs, c) == 0
    decreases |xs|
  {
    if |xs| > 0 {
      CountZero(xs[0], c);
      NoneContain(xs[1..], c);
    }
  }

  /** Joining non-empty strings that do not contain `c` with the separator
      `c`: exactly N - 1 occurrences of `c`, none at either end, and
      splitting at `c` gives the strings back. */
  lemma JoinOnChar(xs: seq<string>, c: char)
    requires |xs| >= 1
    requires forall i :: 0 <= i < |xs| ==> c !in xs[i] && |xs[i]| >= 1
    ensures var v := Join(xs, [c]);
      && Count(v, c) == |xs| - 1
      && v[0] != c && v[|v| - 1] != c
      && Split(v, c) == xs
  {
    var v := Join(xs, [c]);
    NoneContain(xs, c);
    assert Count([c], c) == 1 by {
      assert [c][1..] == [];
    }
    JoinCount(xs, [c], c);
    assert xs[0] <= v && v[0] == xs[0][0];
    var last := xs[|xs| - 1];
    assert v[|v| - |last|..] == last && v[|v| - 1] == last[|last| - 1];
    SplitJoin(xs, c);
  }
}
