/**
 * Decimal digits and Python's number conversions: `int(s)`, `Decimal(s)`, `str(Decimal)`
 * and the `{:06d}` zero-padded format used for link names.
 */
module Numbers {
  import opened Wrappers
  import opened Text

  predicate IsDigit(c: char) { '0' <= c <= '9' }

  predicate AllDigits(s: string) { forall k :: 0 <= k < |s| ==> IsDigit(s[k]) }

  function DigitValue(c: char): nat
    requires IsDigit(c)
  {
    c as int - '0' as int
  }

  function DigitChar(d: nat): (c: char)
    requires d < 10
    ensures IsDigit(c) && DigitValue(c) == d
  {
    ('0' as int + d) as char
  }

  /** The number written by a string of decimal digits (leading zeros allowed). */
  function DigitsValue(s: string): nat
    requires AllDigits(s)
  {
    if s == [] then 0 else DigitsValue(s[..|s| - 1]) * 10 + DigitValue(s[|s| - 1])
  }

  function Pow10(k: nat): (p: nat)
    ensures p >= 1
  {
    if k == 0 then 1 else 10 * Pow10(k - 1)
  }

  /** `str(n)` for a natural number: its shortest decimal spelling. */
  function NatToString(n: nat): (r: string)
    ensures |r| > 0 && AllDigits(r)
    ensures DigitsValue(r) == n
    ensures |r| > 1 ==> r[0] != '0'
  {
    if n < 10 then [DigitChar(n)]
    else
      var r := NatToString(n / 10) + [DigitChar(n % 10)];
      assert r[..|r| - 1] == NatToString(n / 10);
      r
  }

  /** A string of `k` zeros. */
  function Zeros(k: nat): (z: string)
    ensures |z| == k && AllDigits(z)
  {
    seq(k, _ => '0')
  }

  lemma {:induction false} ZerosValue(k: nat)
    ensures DigitsValue(Zeros(k)) == 0
  {
    if k > 0 {
      assert Zeros(k)[..k - 1] == Zeros(k - 1);
      ZerosValue(k - 1);
    }
  }

  /** Leading zeros do not change the number a digit string writes. */
  lemma {:induction false} LeadingZerosValue(k: nat, s: string)
    requires AllDigits(s)
    ensures AllDigits(Zeros(k) + s) && DigitsValue(Zeros(k) + s) == DigitsValue(s)
    decreases |s|
  {
    if s == [] {
      assert Zeros(k) + s == Zeros(k);
      ZerosValue(k);
    } else {
      var z := Zeros(k) + s;
      assert z[..|z| - 1] == Zeros(k) + s[..|s| - 1];
      LeadingZerosValue(k, s[..|s| - 1]);
    }
  }

  /** A number written as `10 * x + d` with a digit `d` determines `x` and `d`. */
  lemma LastDigitSplit(x: nat, dx: nat, y: nat, dy: nat)
    requires dx < 10 && dy < 10 && x * 10 + dx == y * 10 + dy
    ensures x == y && dx == dy
  {
  }

  /** The value of a non-empty digit string: ten times its front plus its last digit. */
  lemma DigitsValueLast(s: string)
    requires AllDigits(s) && s != []
    ensures AllDigits(s[..|s| - 1])
    ensures DigitsValue(s) == DigitsValue(s[..|s| - 1]) * 10 + DigitValue(s[|s| - 1])
  {
  }

  /** Sequences agreeing on their fronts and their last elements are equal. */
  lemma SameFrontAndLast(a: string, b: string)
    requires |a| == |b| > 0 && a[..|a| - 1] == b[..|b| - 1] && a[|a| - 1] == b[|b| - 1]
    ensures a == b
  {
    assert a == a[..|a| - 1] + [a[|a| - 1]];
    assert b == b[..|b| - 1] + [b[|b| - 1]];
  }

  /** Digit strings of one length write the same number only when they are equal. */
  lemma {:induction false} DigitsValueInjective(a: string, b: string)
    requires AllDigits(a) && AllDigits(b) && |a| == |b|
    requires DigitsValue(a) == DigitsValue(b)
    ensures a == b
    decreases |a|
  {
    if a != [] {
      var n := |a|;
      DigitsValueLast(a);
      DigitsValueLast(b);
      LastDigitSplit(DigitsValue(a[..n - 1]), DigitValue(a[n - 1]), DigitsValue(b[..n - 1]), DigitValue(b[n - 1]));
      DigitsValueInjective(a[..n - 1], b[..n - 1]);
      SameFrontAndLast(a, b);
    }
  }

  /** `format(n, "0<width>d")`: left-pad with zeros to at least `width` characters. */
  function ZeroPad(n: nat, width: nat): (r: string)
    ensures |r| >= width && AllDigits(r)
    ensures DigitsValue(r) == n
  {
    var s := NatToString(n);
    if |s| >= width then s
    else
      LeadingZerosValue(width - |s|, s);
      Zeros(width - |s|) + s
  }

  /** Zero padding keeps distinct numbers distinct. */
  lemma ZeroPadInjective(a: nat, b: nat, width: nat)
    requires ZeroPad(a, width) == ZeroPad(b, width)
    ensures a == b
  {
  }

  /** Python `int(s)` on a decimal literal: surrounding whitespace, an optional sign, digits. */
  function ParseInt(s: string): (r: Option<int>)
    ensures r.Some? ==> Strip(s) != []
  {
    var t := Strip(s);
    if |t| > 0 && (t[0] == '-' || t[0] == '+') then
      var body := t[1..];
      if body != [] && AllDigits(body) then
        Some(if t[0] == '-' then -(DigitsValue(body) as int) else DigitsValue(body) as int)
      else None
    else if t != [] && AllDigits(t) then Some(DigitsValue(t) as int)
    else None
  }

  lemma DigitNotSpace(c: char)
    requires IsDigit(c)
    ensures !IsSpace(c)
  {
  }

  lemma DigitsHaveNoSpace(s: string)
    requires AllDigits(s)
    ensures Strip(s) == s
  {
    if s != [] {
      DigitNotSpace(s[0]);
      DigitNotSpace(s[|s| - 1]);
    }
    StripKeeps(s);
  }

  /** Text that starts and ends with a digit is its own strip. */
  lemma StripDigitEnds(s: string)
    requires s != [] && IsDigit(s[0]) && IsDigit(s[|s| - 1])
    ensures Strip(s) == s
  {
    DigitNotSpace(s[0]);
    DigitNotSpace(s[|s| - 1]);
    StripKeeps(s);
  }

  /** A minus sign before text ending in a digit survives stripping. */
  lemma StripNegated(u: string)
    requires u != [] && IsDigit(u[|u| - 1])
    ensures Strip("-" + u) == "-" + u && ("-" + u)[1..] == u
  {
    var m := "-" + u;
    DigitNotSpace(u[|u| - 1]);
    assert m[|m| - 1] == u[|u| - 1];
    StripKeeps(m);
  }

  /** `int` of the digit string of `n` is `n`. */
  lemma ParseIntDigits(s: string, n: nat)
    requires s != [] && AllDigits(s) && DigitsValue(s) == n
    ensures ParseInt(s) == Some(n as int)
  {
    StripDigitEnds(s);
  }

  /** `int` of an optional minus sign and the digits of a number's magnitude is the number. */
  lemma SignedDigitsParse(t: string, n: int, s: string, m: nat)
    requires s != [] && AllDigits(s) && DigitsValue(s) == m
    requires m == (if n < 0 then -n else n)
    requires t == if n < 0 then "-" + s else s
    ensures ParseInt(t) == Some(n)
  {
    if n < 0 {
      ParseIntNegatedDigits(s, m);
    } else {
      ParseIntDigits(s, m);
    }
  }

  /** `int(str(n)) == n`. */
  lemma ParseIntRoundTrip(n: nat)
    ensures ParseInt(NatToString(n)) == Some(n as int)
  {
    ParseIntDigits(NatToString(n), n);
  }

  /** `int` of a minus sign and the digit string of `n` is `-n`. */
  lemma ParseIntNegatedDigits(s: string, n: nat)
    requires s != [] && AllDigits(s) && DigitsValue(s) == n
    ensures ParseInt("-" + s) == Some(-(n as int))
  {
    StripNegated(s);
  }

  /** `int("-" + str(n)) == -n`. */
  lemma ParseIntNegatedRoundTrip(n: nat)
    ensures ParseInt("-" + NatToString(n)) == Some(-(n as int))
  {
    ParseIntNegatedDigits(NatToString(n), n);
  }

  /**
   * A `decimal.Decimal` as Python keeps it: an integer coefficient and a number of
   * digits after the point (the negated exponent). `Decimal("12.50")` is `Dec(1250, 2)`.
   */
  datatype Dec = Dec(coef: int, places: nat)
  {
    /** The number this decimal stands for: the coefficient divided by ten `places` times. */
    function Value(): real
      decreases places
    {
      if places == 0 then coef as real else Dec(coef, places - 1).Value() / 10.0
    }
  }

  /** The value is the coefficient over the matching power of ten. */
  lemma {:induction false} ValueIsQuotient(d: Dec)
    ensures d.Value() == d.coef as real / Pow10(d.places) as real
    decreases d.places
  {
    if d.places > 0 {
      ValueIsQuotient(Dec(d.coef, d.places - 1));
    }
  }

  /** Decimal multiplication by an integer keeps the exponent, as Python's `Decimal * int` does. */
  function MulInt(d: Dec, n: int): (r: Dec)
    ensures r.places == d.places
  {
    Dec(d.coef * n, d.places)
  }

  /** The product's value is the product of the values. */
  lemma {:induction false} MulIntValue(d: Dec, n: int)
    ensures MulInt(d, n).Value() == d.Value() * n as real
    decreases d.places
  {
    if d.places > 0 {
      MulIntValue(Dec(d.coef, d.places - 1), n);
    }
  }

  /** The digits of an unsigned decimal literal `ip.fp` as a coefficient and its places. */
  function ParseUnsignedDecimal(t: string): (r: Option<Dec>)
    ensures r.Some? ==> r.value.coef >= 0
  {
    match IndexOf(t, '.')
    case None =>
      if t != [] && AllDigits(t) then Some(Dec(DigitsValue(t), 0)) else None
    case Some(i) =>
      var ip, fp := t[..i], t[i + 1..];
      if (ip != [] || fp != []) && AllDigits(ip) && AllDigits(fp) then
        Some(Dec(DigitsValue(ip + fp), |fp|))
      else None
  }

  /** `Decimal(s)` for plain decimal literals: whitespace, an optional sign, `ip.fp` digits. */
  function ParseDecimal(s: string): (r: Option<Dec>)
    ensures Strip(s) == "" ==> r.None?
  {
    var t := Strip(s);
    if |t| > 0 && t[0] == '-' then
      match ParseUnsignedDecimal(t[1..])
      case Some(d) => Some(Dec(-d.coef, d.places))
      case None => None
    else if |t| > 0 && t[0] == '+' then ParseUnsignedDecimal(t[1..])
    else ParseUnsignedDecimal(t)
  }

  /** `str(d)` for a non-negative coefficient, in plain (not scientific) notation. */
  function RenderUnsigned(c: nat, k: nat): (r: string)
    ensures r != [] && IsDigit(r[0]) && IsDigit(r[|r| - 1])
  {
    var digits := NatToString(c);
    if k == 0 then digits
    else if |digits| > k then digits[..|digits| - k] + "." + digits[|digits| - k..]
    else "0." + Zeros(k - |digits|) + digits
  }

  /**
   * The plain-notation text of a decimal. `str(Decimal)` prints the same text when the
   * adjusted exponent is at least -6 and the value is not a negative zero.
   */
  function Render(d: Dec): (r: string)
    ensures r != []
  {
    if d.coef < 0 then "-" + RenderUnsigned(-d.coef, d.places)
    else RenderUnsigned(d.coef, d.places)
  }

  lemma DigitsHaveNoDot(s: string)
    requires AllDigits(s)
    ensures '.' !in s
  {
  }

  /** A literal `ip.fp` parses to the digits of `ip + fp` with `|fp|` places. */
  lemma ParsePointed(ip: string, fp: string)
    requires AllDigits(ip) && AllDigits(fp) && fp != []
    ensures ParseUnsignedDecimal(ip + "." + fp) == Some(Dec(DigitsValue(ip + fp), |fp|))
  {
    var t := ip + "." + fp;
    DigitsHaveNoDot(ip);
    assert t[|ip|] == '.';
    assert t[..|ip|] == ip;
    assert IndexOf(t, '.') == Some(|ip|);
    assert t[|ip| + 1..] == fp;
  }

  lemma ZerosCons(k: nat)
    ensures "0" + Zeros(k) == Zeros(k + 1)
  {
  }

  /** A decimal with fewer digits than places renders as `0.` and zero padding. */
  lemma {:induction false} RenderSmallParses(c: nat, k: nat)
    requires k > 0 && |NatToString(c)| <= k
    ensures ParseUnsignedDecimal(RenderUnsigned(c, k)) == Some(Dec(c, k))
  {
    var digits := NatToString(c);
    var z := k - |digits|;
    var fp := Zeros(z) + digits;
    assert AllDigits("0" + fp) && DigitsValue("0" + fp) == c by {
      ZerosCons(z);
      assert "0" + fp == Zeros(z + 1) + digits;
      LeadingZerosValue(z + 1, digits);
    }
    assert ParseUnsignedDecimal("0" + "." + fp) == Some(Dec(c, k)) by {
      ParsePointed("0", fp);
    }
    RenderSmallShape(c, k);
  }

  lemma RenderSmallShape(c: nat, k: nat)
    requires k > 0 && |NatToString(c)| <= k
    ensures RenderUnsigned(c, k) == "0" + "." + (Zeros(k - |NatToString(c)|) + NatToString(c))
  {
  }

  lemma {:induction false} RenderLargeParses(c: nat, k: nat)
    requires k > 0 && |NatToString(c)| > k
    ensures ParseUnsignedDecimal(RenderUnsigned(c, k)) == Some(Dec(c, k))
  {
    var digits := NatToString(c);
    var i := |digits| - k;
    AllDigitsSplit(digits, i);
    ParsePointed(digits[..i], digits[i..]);
    RenderLargeShape(c, k);
  }

  /** Both sides of a cut through a digit string are digit strings, and rejoin to it. */
  lemma AllDigitsSplit(s: string, i: nat)
    requires AllDigits(s) && i <= |s|
    ensures AllDigits(s[..i]) && AllDigits(s[i..]) && s[..i] + s[i..] == s
  {
  }

  lemma RenderLargeShape(c: nat, k: nat)
    requires k > 0 && |NatToString(c)| > k
    ensures RenderUnsigned(c, k) == NatToString(c)[..|NatToString(c)| - k] + "." + NatToString(c)[|NatToString(c)| - k..]
  {
  }

  lemma {:induction false} RenderUnsignedParses(c: nat, k: nat)
    ensures ParseUnsignedDecimal(RenderUnsigned(c, k)) == Some(Dec(c, k))
  {
    if k == 0 {
      DigitsHaveNoDot(NatToString(c));
    } else if |NatToString(c)| > k {
      RenderLargeParses(c, k);
    } else {
      RenderSmallParses(c, k);
    }
  }

  /** `Decimal` of text that starts and ends with a digit is its unsigned reading. */
  lemma ParseDecimalUnsigned(u: string, d: Dec)
    requires u != [] && IsDigit(u[0]) && IsDigit(u[|u| - 1]) && ParseUnsignedDecimal(u) == Some(d)
    ensures ParseDecimal(u) == Some(d)
  {
    StripDigitEnds(u);
  }

  /** `Decimal` of a minus sign and an unsigned literal negates the coefficient. */
  lemma ParseDecimalNegated(u: string, d: Dec)
    requires u != [] && IsDigit(u[|u| - 1]) && ParseUnsignedDecimal(u) == Some(d)
    ensures ParseDecimal("-" + u) == Some(Dec(-d.coef, d.places))
  {
    StripNegated(u);
  }

  /** The text of a negative decimal is a minus sign and the text of its magnitude. */
  lemma RenderSign(d: Dec)
    ensures d.coef < 0 ==> Render(d) == "-" + RenderUnsigned(-d.coef, d.places)
    ensures d.coef >= 0 ==> Render(d) == RenderUnsigned(d.coef, d.places)
  {
  }

  /** `Decimal(str(d)) == d`, exponent included. */
  lemma {:induction false} RenderParses(d: Dec)
    ensures ParseDecimal(Render(d)) == Some(d)
  {
    RenderSign(d);
    if d.coef < 0 {
      RenderUnsignedParses(-d.coef, d.places);
      ParseDecimalNegated(RenderUnsigned(-d.coef, d.places), Dec(-d.coef, d.places));
    } else {
      RenderUnsignedParses(d.coef, d.places);
      ParseDecimalUnsigned(RenderUnsigned(d.coef, d.places), d);
    }
  }

  /** The text of a decimal starts with a digit or a minus sign and ends with a digit. */
  lemma RenderEnds(d: Dec)
    ensures var r := Render(d); (IsDigit(r[0]) || r[0] == '-') && IsDigit(r[|r| - 1])
  {
    RenderSign(d);
  }
}
