/** The JavaScript string and number conversions the data layer relies on:
    `String.prototype.trim`, the regular-expression class `\s`, `String(n)` of an
    integer and `Number(s)` of a string. */
module Text {

  /** ECMAScript WhiteSpace and LineTerminator code points: what `trim` removes,
      what `Number` ignores around a numeral, and what `\s` matches. */
  predicate IsWhitespace(c: char) {
    var k := c as int;
    k == 0x09 || k == 0x0A || k == 0x0B || k == 0x0C || k == 0x0D || k == 0x20 || k == 0xA0
    || k == 0x1680 || (0x2000 <= k <= 0x200A) || k == 0x2028 || k == 0x2029 || k == 0x202F
    || k == 0x205F || k == 0x3000 || k == 0xFEFF
  }

  /** The number of whitespace characters `s` starts with. */
  function LeadingWhitespace(s: string): (n: nat)
    ensures n <= |s|
    ensures forall i :: 0 <= i < n ==> IsWhitespace(s[i])
    ensures n < |s| ==> !IsWhitespace(s[n])
    decreases |s|
  {
    if s != [] && IsWhitespace(s[0]) then
      var n := 1 + LeadingWhitespace(s[1..]);
      assert forall i :: 1 <= i < n ==> s[i] == s[1..][i - 1];
      n
    else 0
  }

  /** The number of whitespace characters `s` ends with. */
  function TrailingWhitespace(s: string): (n: nat)
    ensures n <= |s|
    ensures forall i :: |s| - n <= i < |s| ==> IsWhitespace(s[i])
    ensures n < |s| ==> !IsWhitespace(s[|s| - n - 1])
    decreases |s|
  {
    if s != [] && IsWhitespace(s[|s| - 1]) then
      var n := 1 + TrailingWhitespace(s[..|s| - 1]);
      assert forall i :: |s| - n <= i < |s| - 1 ==> s[i] == s[..|s| - 1][i];
      n
    else 0
  }

  /** `s.trim()`: `s` without whitespace at either end. */
  function Trim(s: string): (r: string)
    ensures |r| <= |s|
  {
    var t := s[LeadingWhitespace(s)..];
    t[..|t| - TrailingWhitespace(t)]
  }

  /** What `trim` keeps neither starts nor ends with whitespace. */
  lemma TrimEnds(s: string)
    ensures var r := Trim(s); r != [] ==> !IsWhitespace(r[0]) && !IsWhitespace(r[|r| - 1])
  {
    var t := s[LeadingWhitespace(s)..];
    var r := Trim(s);
    if r != [] {
      assert r[0] == t[0];
      assert r[|r| - 1] == t[|t| - TrailingWhitespace(t) - 1];
    }
  }

  /** A string that neither starts nor ends with whitespace is its own trim. */
  lemma TrimUnchanged(s: string)
    requires s == [] || (!IsWhitespace(s[0]) && !IsWhitespace(s[|s| - 1]))
    ensures Trim(s) == s
  {
  }

  /** What `trim` removes is whitespace and what it keeps is an infix of `s`. */
  lemma TrimIsInfix(s: string)
    ensures var a := LeadingWhitespace(s); var r := Trim(s);
      && a + |r| <= |s| && r == s[a..a + |r|]
      && (forall i :: 0 <= i < a ==> IsWhitespace(s[i]))
      && (forall i :: a + |r| <= i < |s| ==> IsWhitespace(s[i]))
  {
    var a := LeadingWhitespace(s);
    var t := s[a..];
    var m := |t| - TrailingWhitespace(t);
    assert Trim(s) == t[..m];
    SliceOfSuffix(s, a, m);
    WhitespaceAfter(s, a, m);
  }

  lemma WhitespaceAfter(s: string, a: nat, m: nat)
    requires a + m <= |s|
    requires forall i :: m <= i < |s| - a ==> IsWhitespace(s[a..][i])
    ensures forall i :: a + m <= i < |s| ==> IsWhitespace(s[i])
  {
    forall i | a + m <= i < |s|
      ensures IsWhitespace(s[i])
    {
      assert s[i] == s[a..][i - a];
    }
  }

  lemma SliceOfSuffix(s: string, a: nat, m: nat)
    requires a + m <= |s|
    ensures s[a..][..m] == s[a..a + m]
  {
    forall j | 0 <= j < m
      ensures s[a..][..m][j] == s[a..a + m][j]
    {
    }
  }

  /** Trimming twice is trimming once. */
  lemma TrimIdempotent(s: string)
    ensures Trim(Trim(s)) == Trim(s)
  {
    TrimEnds(s);
    TrimUnchanged(Trim(s));
  }

  predicate IsDigit(c: char) {
    '0' <= c <= '9'
  }

  predicate AllDigits(s: string) {
    forall i :: 0 <= i < |s| ==> IsDigit(s[i])
  }

  function DigitChar(d: nat): (c: char)
    requires d < 10
    ensures IsDigit(c) && c as int - '0' as int == d
  {
    ('0' as int + d) as char
  }

  /** The value of a string of decimal digits (the empty string has value 0). */
  function DigitsValue(s: string): nat
    requires AllDigits(s)
    decreases |s|
  {
    if s == [] then 0 else DigitsValue(s[..|s| - 1]) * 10 + (s[|s| - 1] as int - '0' as int)
  }

  /** `String(n)` for a non-negative integer: its decimal numeral, without leading zeros. */
  function NatToString(n: nat): (s: string)
    ensures 1 <= |s| && AllDigits(s)
    ensures |s| > 1 ==> s[0] != '0'
    decreases n
  {
    if n < 10 then [DigitChar(n)] else NatToString(n / 10) + [DigitChar(n % 10)]
  }

  /** Reading back the numeral of `n` gives `n`. */
  lemma {:induction false} NatToStringValue(n: nat)
    ensures DigitsValue(NatToString(n)) == n
    decreases n
  {
    if n >= 10 {
      NatToStringValue(n / 10);
      var s := NatToString(n);
      assert s[..|s| - 1] == NatToString(n / 10);
    }
  }

  /** `String(i)` (equivalently a template-literal interpolation) of an integer. */
  function IntToString(i: int): (s: string)
    ensures s != [] && !IsWhitespace(s[0]) && !IsWhitespace(s[|s| - 1])
    ensures i >= 0 ==> AllDigits(s)
    ensures i < 0 ==> s[0] == '-' && AllDigits(s[1..])
  {
    if i < 0 then "-" + NatToString(-i) else NatToString(i)
  }

  /** The result of JavaScript's `Number(s)`, restricted to integers. */
  datatype NumberValue = NaN | Finite(value: int)

  /** `Number(s)`: surrounding whitespace is ignored, the empty string is 0, and an
      optionally signed run of decimal digits is its value; anything else is NaN. */
  function ToNumber(s: string): (r: NumberValue)
    ensures s != [] && AllDigits(s) ==> r == Finite(DigitsValue(s))
    ensures Trim(s) == [] ==> r == Finite(0)
    ensures r.Finite? && r.value < 0 ==> exists i :: 0 <= i < |s| && s[i] == '-'
  {
    var t := Trim(s);
    TrimOfDigits(s);
    if t == [] then Finite(0)
    else if (t[0] == '-' || t[0] == '+') && |t| > 1 && AllDigits(t[1..]) then
      var magnitude: int := DigitsValue(t[1..]);
      TrimIsInfix(s);
      assert t[0] == s[LeadingWhitespace(s)];
      Finite(if t[0] == '-' then -magnitude else magnitude)
    else if AllDigits(t) then Finite(DigitsValue(t))
    else NaN
  }

  /** A non-empty run of digits has no whitespace to trim. */
  lemma TrimOfDigits(s: string)
    ensures s != [] && AllDigits(s) ==> Trim(s) == s
  {
    if s != [] && AllDigits(s) {
      TrimUnchanged(s);
    }
  }

  /** `Number(String(i)) === i` for every integer. */
  lemma NumberOfIntToString(i: int)
    ensures ToNumber(IntToString(i)) == Finite(i)
  {
    var s := IntToString(i);
    TrimUnchanged(s);
    if i < 0 {
      NatToStringValue(-i);
      assert s[1..] == NatToString(-i);
    } else {
      NatToStringValue(i);
      assert !IsDigit('-') && !IsDigit('+');
    }
  }

  /** Distinct integers have distinct decimal strings. */
  lemma IntToStringInjective(i: int, j: int)
    ensures IntToString(i) == IntToString(j) ==> i == j
  {
    NumberOfIntToString(i);
    NumberOfIntToString(j);
  }

  /** A separator that cannot continue a numeral: it starts with neither a digit nor `-`. */
  predicate EndsNumeral(sep: string) {
    sep != [] && !IsDigit(sep[0]) && sep[0] != '-'
  }

  /** In a numeral followed by such a separator, every character after the first is a
      digit up to the separator, whose first character is neither a digit nor `-`. */
  lemma NumeralEnd(i: int, sep: string, a: string)
    requires EndsNumeral(sep)
    ensures var s := IntToString(i); var m := s + sep + a;
      && (forall k :: 1 <= k < |s| ==> IsDigit(m[k]))
      && !IsDigit(m[|s|]) && m[|s|] != '-'
  {
    var s := IntToString(i);
    var m := s + sep + a;
    forall k | 1 <= k < |s|
      ensures IsDigit(m[k])
    {
      assert m[k] == s[k];
      if i < 0 {
        assert s[k] == s[1..][k - 1];
      }
    }
    assert m[|s|] == sep[0];
  }

  /** An integer's numeral followed by such a separator can be split in one way only:
      the integer and the rest are determined. */
  lemma NumeralThenSeparator(i: int, j: int, sep: string, a: string, b: string)
    requires EndsNumeral(sep)
    requires IntToString(i) + sep + a == IntToString(j) + sep + b
    ensures i == j && a == b
  {
    var s, t := IntToString(i), IntToString(j);
    var m := s + sep + a;
    NumeralEnd(i, sep, a);
    NumeralEnd(j, sep, b);
    if |s| != |t| {
      assert false;
    }
    assert s == m[..|s|] && t == m[..|t|];
    assert a == m[|s| + |sep|..] && b == (t + sep + b)[|t| + |sep|..];
    IntToStringInjective(i, j);
  }

  /** The same holds after a common prefix. */
  lemma NumeralBetween(p: string, i: int, j: int, sep: string, a: string, b: string)
    requires EndsNumeral(sep)
    requires p + IntToString(i) + sep + a == p + IntToString(j) + sep + b
    ensures i == j && a == b
  {
    var x := IntToString(i) + sep + a;
    var y := IntToString(j) + sep + b;
    Regroup(p, IntToString(i), sep, a);
    Regroup(p, IntToString(j), sep, b);
    CancelPrefix(p, x, y);
    NumeralThenSeparator(i, j, sep, a, b);
  }

  lemma Regroup(p: string, n: string, sep: string, a: string)
    ensures p + n + sep + a == p + (n + sep + a)
  {
  }

  /** A common prefix can be cancelled. */
  lemma CancelPrefix(p: string, x: string, y: string)
    requires p + x == p + y
    ensures x == y
  {
    assert x == (p + x)[|p|..];
    assert y == (p + y)[|p|..];
  }
}
