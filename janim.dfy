/** The time utilities of src/janim.ts (`lerp`, `easeInOut`, `timeSlice`)
    and the SVG dimension parser `parseDimension` with the part of
    JavaScript's `parseFloat` it relies on. */
module Janim {
  import opened Common

  /** Linear interpolation from `a` (at t = 0) to `b` (at t = 1). */
  function Lerp(a: real, b: real, t: real): (r: real)
    ensures t == 0.0 ==> r == a
    ensures t == 1.0 ==> r == b
    ensures a <= b && 0.0 <= t <= 1.0 ==> a <= r <= b
  {
    if a <= b && 0.0 <= t <= 1.0 then
      MulMono(0.0, b - a, 0.0, t);
      MulMono(b - a, b - a, t, 1.0);
      a + (b - a) * t
    else a + (b - a) * t
  }

  /** `Math.pow(x, 2)`. */
  function Pow2(x: real): real
  {
    x * x
  }

  lemma {:induction false} Pow2Bounds(x: real)
    requires 0.0 <= x
    ensures 0.0 <= Pow2(x)
    ensures 0.0 < x ==> 0.0 < Pow2(x)
    ensures x <= 1.0 ==> Pow2(x) <= 1.0
  {
    MulMono(0.0, x, 0.0, x);
    if x <= 1.0 { MulMono(x, 1.0, x, 1.0); }
    if 0.0 < x { SquarePositive(x, Pow2(x)); }
  }

  /** Quadratic ease-in-out. */
  function EaseInOut(t: real): (r: real)
    ensures 0.0 <= t <= 1.0 ==> 0.0 <= r <= 1.0
  {
    EaseHalves(t);
    if t < 0.5 then 2.0 * Pow2(t)
    else 1.0 - Pow2(-2.0 * t + 2.0) / 2.0
  }

  /** The two halves of the easing curve, each within its half of [0,1]. */
  lemma {:induction false} EaseHalves(t: real)
    ensures 0.0 <= t < 0.5 ==> 0.0 <= 2.0 * Pow2(t) <= 0.5
    ensures 0.0 < t < 0.5 ==> 0.0 < 2.0 * Pow2(t)
    ensures 0.5 <= t <= 1.0 ==> 0.5 <= 1.0 - Pow2(-2.0 * t + 2.0) / 2.0 <= 1.0
    ensures 0.5 <= t < 1.0 ==> 1.0 - Pow2(-2.0 * t + 2.0) / 2.0 < 1.0
  {
    if 0.0 <= t < 0.5 {
      Pow2Bounds(t);
      MulMono(t, 0.5, t, 0.5);
    }
    if 0.5 <= t <= 1.0 {
      Pow2Bounds(-2.0 * t + 2.0);
    }
  }

  lemma {:induction false} EaseInOutFixedPoints()
    ensures EaseInOut(0.0) == 0.0 && EaseInOut(0.5) == 0.5 && EaseInOut(1.0) == 1.0
  {
  }

  /** Easing in and easing out are mirror images: E(1 - t) = 1 - E(t). */
  lemma {:induction false} EaseInOutSymmetric(t: real)
    ensures EaseInOut(1.0 - t) == 1.0 - EaseInOut(t)
  {
    if t < 0.5 {
      assert -2.0 * (1.0 - t) + 2.0 == 2.0 * t;
      assert Pow2(2.0 * t) == 4.0 * Pow2(t);
    } else if t > 0.5 {
      assert Pow2(-2.0 * t + 2.0) == 4.0 * Pow2(1.0 - t);
    }
  }

  lemma {:induction false} EaseInOutMonotone(s: real, t: real)
    requires 0.0 <= s <= t <= 1.0
    ensures EaseInOut(s) <= EaseInOut(t)
  {
    EaseHalves(s);
    EaseHalves(t);
    if t < 0.5 {
      MulMono(s, t, s, t);
    } else if s >= 0.5 {
      var us, ut := -2.0 * s + 2.0, -2.0 * t + 2.0;
      MulMono(ut, us, ut, us);
    }
  }

  /** On [0,1] the easing is 0 only at 0 and 1 only at 1. */
  lemma {:induction false} EaseInOutStrict(t: real)
    requires 0.0 <= t <= 1.0
    ensures EaseInOut(t) > 0.0 <==> t > 0.0
    ensures EaseInOut(t) < 1.0 <==> t < 1.0
  {
    EaseHalves(t);
  }

  /** Clamp and normalise `t` into [0,1] over the interval [start, end]. */
  function TimeSlice(t: real, start: real, end: real): (r: real)
    ensures 0.0 <= r <= 1.0
    ensures r == 0.0 <==> t <= start
    ensures r == 1.0 <==> start < t && end <= t
    ensures start < t < end ==> r * (end - start) == t - start
  {
    if t <= start then 0.0
    else if t >= end then 1.0
    else
      var q := (t - start) / (end - start);
      assert q * (end - start) == t - start;
      assert 0.0 < q by { assert end - start > 0.0; }
      assert q < 1.0 by {
        if q >= 1.0 { MulMono(1.0, q, end - start, end - start); }
      }
      q
  }

  lemma {:induction false} TimeSliceMonotone(s: real, t: real, start: real, end: real)
    requires s <= t
    ensures TimeSlice(s, start, end) <= TimeSlice(t, start, end)
  {
    if start < s < end && start < t < end {
      var d := end - start;
      assert (t - start) / d - (s - start) / d == (t - s) / d;
    }
  }

  // ---------------------------------------------------------------------
  // parseDimension and the decimal part of parseFloat
  // ---------------------------------------------------------------------

  /** 1 ex is taken to be 8 px. */
  const EX_TO_PX: real := 8.0

  predicate IsDigit(c: char)
  {
    '0' <= c <= '9'
  }

  predicate AllDigits(s: string)
  {
    forall i :: 0 <= i < |s| ==> IsDigit(s[i])
  }

  function DigitValue(c: char): (d: nat)
    requires IsDigit(c)
    ensures d < 10
  {
    c as int - '0' as int
  }

  /** The value of a run of decimal digits, most significant first. */
  function DigitsValue(ds: string): nat
    requires AllDigits(ds)
  {
    if ds == [] then 0
    else DigitsValue(ds[..|ds| - 1]) * 10 + DigitValue(ds[|ds| - 1])
  }

  /** The value of the digits after a decimal point. */
  function FractionValue(ds: string): (r: real)
    requires AllDigits(ds)
    ensures 0.0 <= r < 1.0
  {
    if ds == [] then 0.0
    else (DigitValue(ds[0]) as real + FractionValue(ds[1..])) / 10.0
  }

  /** Length of the longest prefix of `s` made of digits. */
  function DigitRun(s: string): (n: nat)
    ensures n <= |s| && AllDigits(s[..n])
    ensures n < |s| ==> !IsDigit(s[n])
  {
    if s != [] && IsDigit(s[0]) then
      var n := 1 + DigitRun(s[1..]);
      assert s[..n] == [s[0]] + s[1..][..n - 1];
      n
    else 0
  }

  /** The white space `parseFloat` skips before the number: the
      ECMAScript WhiteSpace and LineTerminator characters. */
  predicate IsSpace(c: char)
  {
    || c == '\t' || c == '\n' || c == '\U{000B}' || c == '\U{000C}' || c == '\r'
    || c == ' ' || c == '\U{00A0}' || c == '\U{1680}' || '\U{2000}' <= c <= '\U{200A}'
    || c == '\U{2028}' || c == '\U{2029}' || c == '\U{202F}' || c == '\U{205F}'
    || c == '\U{3000}' || c == '\U{FEFF}'
  }

  predicate AllSpace(s: string)
  {
    forall i :: 0 <= i < |s| ==> IsSpace(s[i])
  }

  /** Length of the white space at the head of `s`. */
  function SpaceRun(s: string): (n: nat)
    ensures n <= |s| && AllSpace(s[..n])
    ensures n < |s| ==> !IsSpace(s[n])
  {
    if s != [] && IsSpace(s[0]) then
      var n := 1 + SpaceRun(s[1..]);
      assert s[..n] == [s[0]] + s[1..][..n - 1];
      n
    else 0
  }

  /** `v` times 10 to the power `e`, one factor of ten at a time. */
  function Shift(v: real, e: int): (r: real)
    ensures 0.0 <= v ==> 0.0 <= r
    decreases if e >= 0 then e else -e
  {
    if e == 0 then v
    else if e > 0 then Shift(v, e - 1) * 10.0
    else Shift(v, e + 1) / 10.0
  }

  /** The exponent part at the head of `s`, if it has one: 'e' or 'E', an
      optional sign and at least one digit. */
  function Exponent(s: string): Option<int>
  {
    if |s| > 0 && (s[0] == 'e' || s[0] == 'E') then
      var t := s[1..];
      var u := Unsigned(t);
      var d := DigitRun(u);
      if d == 0 then None
      else if |t| > 0 && t[0] == '-' then Some(-(DigitsValue(u[..d]) as int))
      else Some(DigitsValue(u[..d]))
    else None
  }

  /** A digit, or a point followed by a digit: how every number parseFloat
      reads begins. */
  predicate StartsNumeral(s: string)
  {
    |s| > 0 && (IsDigit(s[0]) || (s[0] == '.' && |s| > 1 && IsDigit(s[1])))
  }

  /** The decimal numeral at the head of `s`: digits, optionally a point
      and more digits, with at least one digit in all; its value and its
      length. */
  function Mantissa(s: string): (r: Option<(real, nat)>)
    ensures r.Some? ==> 0.0 <= r.value.0 && 0 < r.value.1 <= |s|
  {
    var k := DigitRun(s);
    if k < |s| && s[k] == '.' then
      var m := DigitRun(s[k + 1..]);
      if k == 0 && m == 0 then None
      else Some((DigitsValue(s[..k]) as real + FractionValue(s[k + 1..][..m]), k + 1 + m))
    else if k == 0 then None
    else Some((DigitsValue(s[..k]) as real, k))
  }

  /** A decimal numeral, then an optional exponent part; the rest of the
      string is ignored, as parseFloat does. */
  function ParseUnsigned(s: string): Option<real>
  {
    match Mantissa(s)
    case None => None
    case Some((v, n)) => Some(WithExponent(v, s[n..]))
  }

  /** A mantissa scaled by the exponent part at the head of `rest`, if
      there is one. */
  function WithExponent(v: real, rest: string): (r: real)
    ensures 0.0 <= v ==> 0.0 <= r
  {
    match Exponent(rest)
    case None => v
    case Some(e) => Shift(v, e)
  }

  /** `s` without its sign character, if it has one. */
  function Unsigned(s: string): string
  {
    if |s| > 0 && (s[0] == '-' || s[0] == '+') then s[1..] else s
  }

  /** An optional sign, then an unsigned number. */
  function ParseSigned(s: string): Option<real>
  {
    if |s| > 0 && s[0] == '-' then
      match ParseUnsigned(s[1..])
      case None => None
      case Some(x) => Some(-x)
    else if |s| > 0 && s[0] == '+' then ParseUnsigned(s[1..])
    else ParseUnsigned(s)
  }

  /** `parseFloat`: white space, an optional sign and a decimal numeral
      with an optional exponent; None is NaN. */
  function ParseFloat(s: string): Option<real>
  {
    if |s| > 0 && IsSpace(s[0]) then ParseFloat(s[1..]) else ParseSigned(s)
  }

  /** parseFloat finds a number exactly when what follows the white space
      and the sign starts like a numeral; after a minus sign the number is
      never positive, otherwise never negative. */
  lemma {:induction false} ParseFloatDefined(s: string)
    ensures var t := s[SpaceRun(s)..];
      && (ParseFloat(s).Some? <==> StartsNumeral(Unsigned(t)))
      && (ParseFloat(s).Some? && |t| > 0 && t[0] == '-' ==> ParseFloat(s).value <= 0.0)
      && (ParseFloat(s).Some? && !(|t| > 0 && t[0] == '-') ==> 0.0 <= ParseFloat(s).value)
  {
    ParseFloatTrimmed(s);
    ParseSignedDefined(s[SpaceRun(s)..]);
  }

  /** Leading white space is skipped: what is parsed is the rest after it. */
  lemma {:induction false} ParseFloatTrimmed(s: string)
    ensures ParseFloat(s) == ParseSigned(s[SpaceRun(s)..])
  {
    if |s| > 0 && IsSpace(s[0]) {
      assert s[SpaceRun(s)..] == s[1..][SpaceRun(s[1..])..];
      ParseFloatTrimmed(s[1..]);
    } else {
      assert s[SpaceRun(s)..] == s;
    }
  }

  lemma {:induction false} ParseSignedDefined(s: string)
    ensures ParseSigned(s).Some? <==> StartsNumeral(Unsigned(s))
    ensures ParseSigned(s).Some? && |s| > 0 && s[0] == '-' ==> ParseSigned(s).value <= 0.0
    ensures ParseSigned(s).Some? && !(|s| > 0 && s[0] == '-') ==> 0.0 <= ParseSigned(s).value
  {
    ParseUnsignedDefined(Unsigned(s));
  }

  lemma {:induction false} ParseUnsignedDefined(s: string)
    ensures ParseUnsigned(s).Some? <==> StartsNumeral(s)
    ensures ParseUnsigned(s).Some? ==> 0.0 <= ParseUnsigned(s).value
  {
    MantissaDefined(s);
  }

  lemma {:induction false} MantissaDefined(s: string)
    ensures Mantissa(s).Some? <==> StartsNumeral(s)
  {
    var k := DigitRun(s);
    assert k > 0 <==> |s| > 0 && IsDigit(s[0]);
    if k < |s| && s[k] == '.' {
      var m := DigitRun(s[k + 1..]);
      assert m > 0 <==> |s| > k + 1 && IsDigit(s[k + 1]);
    }
  }

  predicate EndsWith(s: string, suffix: string)
  {
    |suffix| <= |s| && s[|s| - |suffix|..] == suffix
  }

  /** `parseDimension`: an SVG length in ex or px, converted to px. It is a
      number exactly when parseFloat reads one, 8 px per ex, and any other
      unit (px included) leaves the number as it is. */
  function ParseDimension(value: string): (r: Option<real>)
    ensures r.Some? <==> ParseFloat(value).Some?
    ensures r.Some? && EndsWith(value, "ex") ==> r.value == ParseFloat(value).value * EX_TO_PX
    ensures !EndsWith(value, "ex") ==> r == ParseFloat(value)
  {
    match ParseFloat(value)
    case None => None
    case Some(n) =>
      if EndsWith(value, "ex") then Some(n * EX_TO_PX)
      else if EndsWith(value, "px") then Some(n)
      else Some(n)
  }

  lemma {:induction false} DigitRunOfDigits(ds: string, rest: string)
    requires AllDigits(ds)
    requires rest == [] || !IsDigit(rest[0])
    ensures DigitRun(ds + rest) == |ds|
  {
    if ds != [] {
      assert (ds + rest)[1..] == ds[1..] + rest;
      DigitRunOfDigits(ds[1..], rest);
    }
  }

  /** The numeral MathJax writes: an optional minus sign, integer digits and
      optional fraction digits after a point. */
  function Numeral(negative: bool, ip: string, fp: Option<string>): string
  {
    (if negative then "-" else "") + UnsignedNumeral(ip, fp)
  }

  function UnsignedNumeral(ip: string, fp: Option<string>): string
  {
    ip + (match fp case None => "" case Some(f) => "." + f)
  }

  function NumeralValue(negative: bool, ip: string, fp: Option<string>): real
    requires AllDigits(ip)
    requires fp.Some? ==> AllDigits(fp.value)
  {
    var v := UnsignedNumeralValue(ip, fp);
    if negative then -v else v
  }

  function UnsignedNumeralValue(ip: string, fp: Option<string>): (r: real)
    requires AllDigits(ip)
    requires fp.Some? ==> AllDigits(fp.value)
    ensures 0.0 <= r
  {
    DigitsValue(ip) as real + (match fp case None => 0.0 case Some(f) => FractionValue(f))
  }

  /** parseFloat reads a numeral followed by anything that does not extend
      it as the numeral's value scaled by the exponent part that follows. */
  lemma {:induction false} ParseFloatReadsNumeral(negative: bool, ip: string, fp: Option<string>, unit: string)
    requires AllDigits(ip) && |ip| > 0
    requires fp.Some? ==> AllDigits(fp.value)
    requires unit == [] || (!IsDigit(unit[0]) && unit[0] != '.')
    ensures var v := WithExponent(UnsignedNumeralValue(ip, fp), unit);
      ParseFloat(Numeral(negative, ip, fp) + unit) == Some(if negative then -v else v)
  {
    NumeralBody(ip, fp, unit);
    NumeralSigned(negative, ip, fp, unit);
  }

  /** With no exponent part after it (a unit such as "ex" or "px"),
      parseFloat reads a numeral as the numeral's own value. */
  lemma {:induction false} ParseFloatIgnoresUnit(negative: bool, ip: string, fp: Option<string>, unit: string)
    requires AllDigits(ip) && |ip| > 0
    requires fp.Some? ==> AllDigits(fp.value)
    requires unit == [] || (!IsDigit(unit[0]) && unit[0] != '.')
    requires Exponent(unit).None?
    ensures ParseFloat(Numeral(negative, ip, fp) + unit) == Some(NumeralValue(negative, ip, fp))
  {
    var v := UnsignedNumeralValue(ip, fp);
    ParseFloatReadsNumeral(negative, ip, fp, unit);
    WithoutExponentPart(v, unit);
    assert NumeralValue(negative, ip, fp) == if negative then -v else v;
  }

  lemma {:induction false} NumeralBody(ip: string, fp: Option<string>, unit: string)
    requires AllDigits(ip) && |ip| > 0
    requires fp.Some? ==> AllDigits(fp.value)
    requires unit == [] || (!IsDigit(unit[0]) && unit[0] != '.')
    ensures var body := UnsignedNumeral(ip, fp) + unit;
      |body| > 0 && IsDigit(body[0]) && ParseUnsigned(body) == Some(WithExponent(UnsignedNumeralValue(ip, fp), unit))
  {
    var body := UnsignedNumeral(ip, fp) + unit;
    ParseUnsignedNumeral(ip, fp, unit);
    assert body[0] == ip[0];
  }

  lemma {:induction false} NumeralSigned(negative: bool, ip: string, fp: Option<string>, unit: string)
    requires AllDigits(ip) && |ip| > 0
    requires fp.Some? ==> AllDigits(fp.value)
    requires var body := UnsignedNumeral(ip, fp) + unit;
      |body| > 0 && IsDigit(body[0]) && ParseUnsigned(body) == Some(WithExponent(UnsignedNumeralValue(ip, fp), unit))
    ensures var v := WithExponent(UnsignedNumeralValue(ip, fp), unit);
      ParseFloat(Numeral(negative, ip, fp) + unit) == Some(if negative then -v else v)
  {
    ParseFloatSigned(negative, UnsignedNumeral(ip, fp) + unit, Numeral(negative, ip, fp) + unit);
  }

  /** parseFloat of an optional minus sign before a number that starts
      with a digit. */
  lemma {:induction false} ParseFloatSigned(negative: bool, body: string, s: string)
    requires |body| > 0 && IsDigit(body[0]) && ParseUnsigned(body).Some?
    requires s == (if negative then "-" else "") + body
    ensures var x := ParseUnsigned(body).value;
      ParseFloat(s) == Some(if negative then -x else x)
  {
    if negative {
      ParseSignedMinus(body);
    } else {
      assert s == body;
      ParseSignedDigit(body);
    }
    ParseFloatUnspaced(s);
  }

  lemma {:induction false} ParseSignedMinus(body: string)
    requires ParseUnsigned(body).Some?
    ensures ParseSigned("-" + body) == Some(-ParseUnsigned(body).value)
  {
    assert ("-" + body)[1..] == body;
  }

  lemma {:induction false} ParseSignedDigit(body: string)
    requires |body| > 0 && IsDigit(body[0])
    ensures ParseSigned(body) == ParseUnsigned(body)
  {
  }

  /** Without white space in front, parseFloat reads the sign and the
      number at once. */
  lemma {:induction false} ParseFloatUnspaced(s: string)
    requires |s| > 0 && !IsSpace(s[0])
    ensures ParseFloat(s) == ParseSigned(s)
  {
  }

  lemma {:induction false} ParseUnsignedNumeral(ip: string, fp: Option<string>, unit: string)
    requires AllDigits(ip) && |ip| > 0
    requires fp.Some? ==> AllDigits(fp.value)
    requires unit == [] || (!IsDigit(unit[0]) && unit[0] != '.')
    ensures ParseUnsigned(UnsignedNumeral(ip, fp) + unit) == Some(WithExponent(UnsignedNumeralValue(ip, fp), unit))
  {
    match fp {
      case None =>
        assert UnsignedNumeral(ip, fp) == ip;
        ParseUnsignedInteger(ip, unit);
      case Some(f) =>
        ParseUnsignedFraction(ip, f, unit);
    }
  }

  lemma {:induction false} ParseUnsignedFraction(ip: string, f: string, unit: string)
    requires AllDigits(ip) && |ip| > 0 && AllDigits(f)
    requires unit == [] || !IsDigit(unit[0])
    ensures ParseUnsigned(UnsignedNumeral(ip, Some(f)) + unit) == Some(WithExponent(UnsignedNumeralValue(ip, Some(f)), unit))
  {
    assert UnsignedNumeral(ip, Some(f)) + unit == ip + ("." + f) + unit;
    assert UnsignedNumeralValue(ip, Some(f)) == DigitsValue(ip) as real + FractionValue(f);
    ParseUnsignedDecimal(ip, f, unit);
  }

  /** Without an exponent part the mantissa is taken as it is. */
  lemma {:induction false} WithoutExponentPart(v: real, rest: string)
    requires Exponent(rest).None?
    ensures WithExponent(v, rest) == v
  {
  }

  /** Digits followed by something other than a digit or a point. */
  lemma {:induction false} ParseUnsignedInteger(ip: string, unit: string)
    requires AllDigits(ip) && |ip| > 0
    requires unit == [] || (!IsDigit(unit[0]) && unit[0] != '.')
    ensures ParseUnsigned(ip + unit) == Some(WithExponent(DigitsValue(ip) as real, unit))
  {
    var s := ip + unit;
    MantissaInteger(ip, unit);
    ParseUnsignedOf(s);
    var (v, n) := Mantissa(s).value;
    assert v == DigitsValue(ip) as real && n == |ip|;
    assert s[n..] == unit;
  }

  lemma {:induction false} ParseUnsignedOf(s: string)
    requires Mantissa(s).Some?
    ensures ParseUnsigned(s) == Some(WithExponent(Mantissa(s).value.0, s[Mantissa(s).value.1..]))
  {
  }

  lemma {:induction false} MantissaInteger(ip: string, unit: string)
    requires AllDigits(ip) && |ip| > 0
    requires unit == [] || (!IsDigit(unit[0]) && unit[0] != '.')
    ensures Mantissa(ip + unit) == Some((DigitsValue(ip) as real, |ip|))
  {
    var s := ip + unit;
    var k := |ip|;
    DigitRunOfDigits(ip, unit);
    assert s[..k] == ip;
    assert !(k < |s| && s[k] == '.') by {
      if unit != [] {
        assert s[k] == unit[0];
      }
    }
  }

  /** Digits, a point and digits, followed by something other than a
      digit. */
  lemma {:induction false} ParseUnsignedDecimal(ip: string, f: string, unit: string)
    requires AllDigits(ip) && |ip| > 0 && AllDigits(f)
    requires unit == [] || !IsDigit(unit[0])
    ensures ParseUnsigned(ip + ("." + f) + unit) == Some(WithExponent(DigitsValue(ip) as real + FractionValue(f), unit))
  {
    var s := ip + ("." + f) + unit;
    var x := DigitsValue(ip) as real + FractionValue(f);
    MantissaDecimal(ip, f, unit);
    ParseUnsignedOf(s);
    var (v, n) := Mantissa(s).value;
    assert v == x && s[n..] == unit;
    assert WithExponent(v, s[n..]) == WithExponent(x, unit);
  }

  lemma {:induction false} MantissaDecimal(ip: string, f: string, unit: string)
    requires AllDigits(ip) && |ip| > 0 && AllDigits(f)
    requires unit == [] || !IsDigit(unit[0])
    ensures Mantissa(ip + ("." + f) + unit) == Some((DigitsValue(ip) as real + FractionValue(f), |ip| + 1 + |f|))
  {
    var s := ip + ("." + f) + unit;
    var k := |ip|;
    DecimalLayout(ip, f, unit, s);
    MantissaPoint(s, k, |f|);
  }

  /** Where the pieces of a decimal numeral sit in the string. */
  lemma {:induction false} DecimalLayout(ip: string, f: string, unit: string, s: string)
    requires AllDigits(ip) && |ip| > 0 && AllDigits(f)
    requires unit == [] || !IsDigit(unit[0])
    requires s == ip + ("." + f) + unit
    ensures DigitRun(s) == |ip| < |s| && s[|ip|] == '.' && s[..|ip|] == ip
    ensures DigitRun(s[|ip| + 1..]) == |f| && s[|ip| + 1..][..|f|] == f
  {
    var k := |ip|;
    assert s == ip + ("." + f + unit);
    DigitRunOfDigits(ip, "." + f + unit);
    assert s[..k] == ip;
    assert s[k + 1..] == f + unit;
    DigitRunOfDigits(f, unit);
  }

  /** The mantissa of digits, a point and digits, read off the runs. */
  lemma {:induction false} MantissaPoint(s: string, k: nat, m: nat)
    requires DigitRun(s) == k > 0 && k < |s| && s[k] == '.'
    requires DigitRun(s[k + 1..]) == m
    ensures Mantissa(s) == Some((DigitsValue(s[..k]) as real + FractionValue(s[k + 1..][..m]), k + 1 + m))
  {
  }

  /** White space in front of a number does not change what parseFloat
      reads. */
  lemma {:induction false} ParseFloatSkipsSpace(w: string, s: string)
    requires AllSpace(w)
    ensures ParseFloat(w + s) == ParseFloat(s)
  {
    if w != [] {
      assert (w + s)[0] == w[0] && IsSpace(w[0]);
      assert ParseFloat(w + s) == ParseFloat((w + s)[1..]);
      assert (w + s)[1..] == w[1..] + s;
      ParseFloatSkipsSpace(w[1..], s);
    } else {
      assert w + s == s;
    }
  }

  /** MathJax sizes such as "2.262ex" become 8 px per ex; "px" sizes are
      taken as they are. */
  lemma {:induction false} ParseDimensionUnits(negative: bool, ip: string, fp: Option<string>)
    requires AllDigits(ip) && |ip| > 0
    requires fp.Some? ==> AllDigits(fp.value)
    ensures ParseDimension(Numeral(negative, ip, fp) + "ex") == Some(NumeralValue(negative, ip, fp) * 8.0)
    ensures ParseDimension(Numeral(negative, ip, fp) + "px") == Some(NumeralValue(negative, ip, fp))
  {
    var x := NumeralValue(negative, ip, fp);
    UnitsHaveNoExponent();
    ParseFloatIgnoresUnit(negative, ip, fp, "ex");
    ParseFloatIgnoresUnit(negative, ip, fp, "px");
    UnitSuffixes(Numeral(negative, ip, fp));
    ParseDimensionOf(Numeral(negative, ip, fp) + "ex", x);
    ParseDimensionOf(Numeral(negative, ip, fp) + "px", x);
  }

  lemma {:induction false} UnitsHaveNoExponent()
    ensures Exponent("ex").None? && Exponent("px").None?
  {
    assert DigitRun("x") == 0;
  }

  lemma {:induction false} UnitSuffixes(n: string)
    ensures EndsWith(n + "ex", "ex") && !EndsWith(n + "px", "ex")
  {
    var ex, px := n + "ex", n + "px";
    assert ex[|ex| - 2..] == "ex";
    assert px[|px| - 2..] == "px";
  }

  /** What ParseDimension makes of a string whose number is x. */
  lemma {:induction false} ParseDimensionOf(value: string, x: real)
    requires ParseFloat(value) == Some(x)
    ensures ParseDimension(value) == Some(if EndsWith(value, "ex") then x * 8.0 else x)
  {
  }

  /** White space before the number is skipped: " 2ex" is 16 px. */
  lemma {:induction false} ParseDimensionSkipsSpace()
    ensures ParseDimension(" 2ex") == Some(16.0)
  {
    ParseFloatSpacedTwo();
    assert EndsWith(" 2ex", "ex");
    ParseDimensionOf(" 2ex", 2.0);
  }

  lemma {:induction false} ParseFloatSpacedTwo()
    ensures ParseFloat(" 2ex") == Some(2.0)
  {
    ParseFloatTwo();
    assert AllSpace(" ");
    ParseFloatSkipsSpace(" ", "2ex");
    assert " " + "2ex" == " 2ex";
  }

  lemma {:induction false} ParseFloatTwo()
    ensures ParseFloat("2ex") == Some(2.0)
  {
    assert Exponent("ex").None? by { assert DigitRun("x") == 0; }
    ParseFloatIgnoresUnit(false, "2", None, "ex");
    assert Numeral(false, "2", None) + "ex" == "2ex";
    assert NumeralValue(false, "2", None) == 2.0 by { assert DigitsValue("2") == 2; }
  }

  /** The exponent is read before the unit is looked at: "1e3ex" is
      8000 px and "-1.5e-1px" is -0.15 px. */
  lemma {:induction false} ParseDimensionExponents()
    ensures ParseDimension("1e3ex") == Some(8000.0)
    ensures ParseDimension("-1.5e-1px") == Some(-0.15)
  {
    ParseFloatPositiveExponent();
    assert EndsWith("1e3ex", "ex");
    ParseDimensionOf("1e3ex", 1000.0);
    ParseFloatNegativeExponent();
    assert !EndsWith("-1.5e-1px", "ex");
    ParseDimensionOf("-1.5e-1px", -0.15);
  }

  lemma {:induction false} ParseFloatPositiveExponent()
    ensures ParseFloat("1e3ex") == Some(1000.0)
  {
    WithExponentThousand();
    NumeralOne();
    ParseFloatReadsNumeral(false, "1", None, "e3ex");
  }

  lemma {:induction false} ParseFloatNegativeExponent()
    ensures ParseFloat("-1.5e-1px") == Some(-0.15)
  {
    WithExponentTenth();
    NumeralOnePointFive();
    ParseFloatReadsNumeral(true, "1", Some("5"), "e-1px");
  }

  lemma {:induction false} NumeralOne()
    ensures Numeral(false, "1", None) + "e3ex" == "1e3ex"
    ensures UnsignedNumeralValue("1", None) == 1.0
  {
    assert DigitsValue("1") == 1;
  }

  lemma {:induction false} NumeralOnePointFive()
    ensures Numeral(true, "1", Some("5")) + "e-1px" == "-1.5e-1px"
    ensures UnsignedNumeralValue("1", Some("5")) == 1.5
  {
    assert DigitsValue("1") == 1;
    assert FractionValue("5") == 0.5 by { assert "5"[1..] == ""; }
  }

  lemma {:induction false} WithExponentThousand()
    ensures WithExponent(1.0, "e3ex") == 1000.0
  {
    assert Exponent("e3ex") == Some(3) by {
      assert "e3ex"[1..] == "3ex" && "3ex"[1..] == "ex";
      assert DigitRun("3ex") == 1 by { assert DigitRun("ex") == 0; }
      assert "3ex"[..1] == "3" && DigitsValue("3") == 3;
    }
    assert Shift(1.0, 3) == 1000.0 by {
      assert Shift(1.0, 1) == 10.0;
      assert Shift(1.0, 2) == 100.0;
    }
  }

  lemma {:induction false} WithExponentTenth()
    ensures WithExponent(1.5, "e-1px") == 0.15
  {
    assert Exponent("e-1px") == Some(-1) by {
      assert "e-1px"[1..] == "-1px" && "-1px"[1..] == "1px" && "1px"[1..] == "px";
      assert DigitRun("1px") == 1 by { assert DigitRun("px") == 0; }
      assert "1px"[..1] == "1" && DigitsValue("1") == 1;
    }
    assert Shift(1.5, -1) == 0.15;
  }
}
