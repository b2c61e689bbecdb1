/**
  Decimal rendering of a Java `long`, as `String.valueOf(long)` produces it, together with
  the matching parser. The plugin uses the rendering as the file-name stem of a synthesized
  recording path; the parser is the reference that shows the stem determines the time stamp.
 */
module Decimal {
  import opened Wrappers

  predicate IsDigit(c: char) {
    '0' <= c <= '9'
  }

  predicate AllDigits(s: string) {
    forall i :: 0 <= i < |s| ==> IsDigit(s[i])
  }

  function DigitValue(c: char): nat
    requires IsDigit(c)
  {
    c as int - '0' as int
  }

  function DigitChar(d: nat): (c: char)
    requires d < 10
    ensures IsDigit(c) && DigitValue(c) == d
  {
    ('0' as int + d) as char
  }

  /** A decimal magnitude as Java writes it: digits only, no leading zero unless it is "0". */
  predicate IsCanonicalNat(m: string) {
    |m| > 0 && AllDigits(m) && (|m| > 1 ==> m[0] != '0')
  }

  /** A `long` as Java writes it: a canonical magnitude, preceded by '-' for a non-zero negative. */
  predicate IsCanonicalLong(s: string) {
    if |s| > 0 && s[0] == '-' then IsCanonicalNat(s[1..]) && s[1..] != "0"
    else IsCanonicalNat(s)
  }

  /** Most significant digit first, no leading zeros, "0" for zero. */
  function NatToString(n: nat): (s: string)
    ensures |s| > 0 && AllDigits(s)
    ensures |s| > 1 ==> s[0] != '0'
    decreases n
  {
    if n < 10 then [DigitChar(n)] else NatToString(n / 10) + [DigitChar(n % 10)]
  }

  /** `String.valueOf(long)`: a leading '-' for negative values, then the magnitude. */
  function LongToString(n: int): (s: string)
    ensures |s| > 0
    ensures s[0] == '-' <==> n < 0
    ensures forall i :: 0 < i < |s| ==> IsDigit(s[i])
    ensures IsCanonicalLong(s)
  {
    if n < 0 then
      var m := NatToString(-n);
      assert ("-" + m)[1..] == m;
      NatRoundTrip(-n);
      "-" + m
    else
      NatToString(n)
  }

  /** The value of a string of digits, read most significant digit first. */
  function DigitsValue(s: string): nat
    requires AllDigits(s)
    decreases |s|
  {
    if |s| == 0 then 0 else DigitsValue(s[..|s| - 1]) * 10 + DigitValue(s[|s| - 1])
  }

  function ParseNat(s: string): Option<nat> {
    if |s| > 0 && AllDigits(s) then Some(DigitsValue(s)) else None
  }

  function ParseInt(s: string): Option<int> {
    if |s| > 0 && s[0] == '-' then
      match ParseNat(s[1..])
      case Some(v) => Some(-(v as int))
      case None => None
    else
      ParseNat(s)
  }

  lemma {:induction false} NatRoundTrip(n: nat)
    ensures ParseNat(NatToString(n)) == Some(n)
    decreases n
  {
    var s := NatToString(n);
    if n < 10 {
      assert s[..0] == [];
    } else {
      var t := NatToString(n / 10);
      NatRoundTrip(n / 10);
      assert s[..|s| - 1] == t;
      assert DigitsValue(s) == DigitsValue(t) * 10 + n % 10;
    }
  }

  /** The rendering is decoded back to the number it came from. */
  lemma LongRoundTrip(n: int)
    ensures ParseInt(LongToString(n)) == Some(n)
  {
    var s := LongToString(n);
    if n < 0 {
      assert s[1..] == NatToString(-n);
      NatRoundTrip(-n);
    } else {
      NatRoundTrip(n);
    }
  }

  /** A digit string whose first digit is not '0' has a positive value. */
  lemma {:induction false} LeadingNonZeroPositive(t: string)
    requires |t| > 0 && AllDigits(t) && t[0] != '0'
    ensures DigitsValue(t) > 0
    decreases |t|
  {
    if |t| > 1 {
      var init := t[..|t| - 1];
      assert init[0] == t[0];
      LeadingNonZeroPositive(init);
    }
  }

  /** A canonical magnitude is the rendering of its value. */
  lemma {:induction false} CanonicalNatUnique(m: string)
    requires IsCanonicalNat(m)
    ensures NatToString(DigitsValue(m)) == m
    decreases |m|
  {
    var n := DigitsValue(m);
    var c := m[|m| - 1];
    if |m| == 1 {
      assert m[..0] == [];
      assert DigitChar(DigitValue(c)) == c;
    } else {
      var t := m[..|m| - 1];
      assert t[0] == m[0];
      LeadingNonZeroPositive(t);
      CanonicalNatUnique(t);
      assert n / 10 == DigitsValue(t) && n % 10 == DigitValue(c);
      assert DigitChar(DigitValue(c)) == c;
      assert m == t + [c];
    }
  }

  /**
    The decoder is exact on canonical strings: the only canonical string that parses to `n`
    is the rendering of `n`.
   */
  lemma CanonicalLongUnique(s: string, n: int)
    requires IsCanonicalLong(s) && ParseInt(s) == Some(n)
    ensures s == LongToString(n)
  {
    if |s| > 0 && s[0] == '-' {
      var m := s[1..];
      CanonicalNatUnique(m);
      assert s == "-" + m;
    } else {
      CanonicalNatUnique(s);
    }
  }

  /** Distinct numbers render to distinct strings. */
  lemma LongToStringInjective(a: int, b: int)
    ensures LongToString(a) == LongToString(b) ==> a == b
  {
    LongRoundTrip(a);
    LongRoundTrip(b);
  }
}
