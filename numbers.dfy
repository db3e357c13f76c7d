/**
 * Numbers as text: decimal digit strings, the float64 values Go and
 * JavaScript compute with, and the two string-to-number conversions the
 * system relies on (Go's strconv.ParseFloat and JavaScript's Number).
 */
module Numbers {
  import opened Wrappers
  import Strings
  import Seqs

  /** A float64: a finite value, NaN, or an infinity of either sign. */
  datatype Float = Finite(value: real) | NaN | Inf(negative: bool)

  /** IEEE 754 `a <= b`; every comparison with NaN is false. */
  predicate Le(a: Float, b: Float)
  {
    match (a, b)
    case (NaN, _) => false
    case (_, NaN) => false
    case (Inf(na), Inf(nb)) => na || !nb
    case (Inf(na), Finite(_)) => na
    case (Finite(_), Inf(nb)) => !nb
    case (Finite(x), Finite(y)) => x <= y
  }

  /** IEEE 754 `a < b`. */
  predicate Lt(a: Float, b: Float)
  {
    Le(a, b) && !Le(b, a)
  }

  /** NaN is unordered: it is neither below, above nor equal to anything. */
  lemma NaNUnordered(x: Float)
    ensures !Le(NaN, x) && !Le(x, NaN) && !Lt(NaN, x) && !Lt(x, NaN)
  {
  }

  /** On finite values the comparisons are the ones on the reals. */
  lemma FiniteCompare(x: real, y: real)
    ensures Le(Finite(x), Finite(y)) <==> x <= y
    ensures Lt(Finite(x), Finite(y)) <==> x < y
  {
  }

  predicate IsDigit(c: char)
  {
    '0' <= c <= '9'
  }

  predicate AllDigits(s: string)
  {
    forall i :: 0 <= i < |s| ==> IsDigit(s[i])
  }

  function DigitValue(c: char): nat
    requires IsDigit(c)
  {
    c as int - '0' as int
  }

  function DigitChar(d: nat): (c: char)
    requires d < 10
    ensures IsDigit(c) && DigitValue(c) == d
  {
    ('0' as int + d) as char
  }

  /** The value of a string of decimal digits, most significant first. */
  function DigitsValue(s: string): nat
    requires AllDigits(s)
  {
    if s == [] then 0 else 10 * DigitsValue(s[..|s| - 1]) + DigitValue(s[|s| - 1])
  }

  function Pow10(n: nat): (r: nat)
    ensures r >= 1
  {
    if n == 0 then 1 else 10 * Pow10(n - 1)
  }

  /** The value of a concatenation of digit strings. */
  lemma {:induction false} DigitsValueAppend(a: string, b: string)
    requires AllDigits(a) && AllDigits(b)
    ensures AllDigits(a + b)
    ensures DigitsValue(a + b) == DigitsValue(a) * Pow10(|b|) + DigitsValue(b)
    decreases |b|
  {
    if b == [] {
      assert a + b == a;
    } else {
      var b' := b[..|b| - 1];
      var d := DigitValue(b[|b| - 1]);
      assert (a + b)[..|a + b| - 1] == a + b';
      DigitsValueAppend(a, b');
      var x, y, z := DigitsValue(a), Pow10(|b'|), DigitsValue(b');
      calc {
        DigitsValue(a + b);
        10 * DigitsValue(a + b') + d;
        10 * (x * y + z) + d;
        { ShiftProduct(x, y, z); }
        x * (10 * y) + (10 * z + d);
        x * Pow10(|b|) + DigitsValue(b);
      }
    }
  }

  lemma ShiftProduct(x: nat, y: nat, z: nat)
    ensures 10 * (x * y + z) == x * (10 * y) + 10 * z
  {
  }

  /** The shortest decimal numeral of `n` (Go's %d, JavaScript's String(n)). */
  function NatToDigits(n: nat): (s: string)
    ensures |s| >= 1 && AllDigits(s) && DigitsValue(s) == n
    decreases n
  {
    if n < 10 then
      var s := [DigitChar(n)];
      assert s[..0] == [];
      s
    else
      var init := NatToDigits(n / 10);
      var s := init + [DigitChar(n % 10)];
      assert s[..|s| - 1] == init;
      s
  }

  /** A number below 10^k has at most k digits. */
  lemma {:induction false} NatToDigitsLength(n: nat, k: nat)
    requires 1 <= k && n < Pow10(k)
    ensures |NatToDigits(n)| <= k
    decreases k
  {
    if n >= 10 {
      NatToDigitsLength(n / 10, k - 1);
    }
  }

  lemma FitsWidth(n: nat, width: nat)
    ensures 1 <= width && n < Pow10(width) ==> |NatToDigits(n)| <= width
  {
    if 1 <= width && n < Pow10(width) {
      NatToDigitsLength(n, width);
    }
  }

  function Zeros(k: nat): (s: string)
    ensures |s| == k && AllDigits(s) && DigitsValue(s) == 0
  {
    if k == 0 then ""
    else
      var s := Zeros(k - 1) + "0";
      assert s[..|s| - 1] == Zeros(k - 1);
      s
  }

  /** Go's %0<width>d: the numeral of `n`, left-padded with zeros to `width`. */
  function ZeroPadded(n: nat, width: nat): (s: string)
    ensures AllDigits(s) && DigitsValue(s) == n
    ensures |s| >= width && |s| >= 1
    ensures 1 <= width && n < Pow10(width) ==> |s| == width
  {
    var d := NatToDigits(n);
    FitsWidth(n, width);
    if |d| >= width then d
    else
      var z := Zeros(width - |d|);
      DigitsValueAppend(z, d);
      assert DigitsValue(z + d) == 0 * Pow10(|d|) + n;
      z + d
  }

  /** Two digit strings of one length with one value are the same string. */
  lemma {:induction false} DigitsInjective(a: string, b: string)
    requires AllDigits(a) && AllDigits(b) && |a| == |b|
    requires DigitsValue(a) == DigitsValue(b)
    ensures a == b
    decreases |a|
  {
    if a != [] {
      var n := |a| - 1;
      var x, y := DigitValue(a[n]), DigitValue(b[n]);
      assert 10 * DigitsValue(a[..n]) + x == 10 * DigitsValue(b[..n]) + y;
      assert x == y && DigitsValue(a[..n]) == DigitsValue(b[..n]);
      DigitsInjective(a[..n], b[..n]);
      assert a == a[..n] + [a[n]] && b == b[..n] + [b[n]];
    }
  }

  /** The characters a decimal numeral is written with. */
  predicate NumeralChar(c: char)
  {
    IsDigit(c) || c == '.' || c == 'e' || c == 'E' || c == '+' || c == '-'
  }

  /** An optional sign followed by at least one digit: a decimal exponent. */
  function ParseExponent(s: string): (r: Option<int>)
    ensures r.Some? ==> forall i :: 0 <= i < |s| ==> NumeralChar(s[i])
  {
    if |s| > 0 && (s[0] == '+' || s[0] == '-') then
      var d := s[1..];
      if d != "" && AllDigits(d) then
        Some(if s[0] == '-' then -(DigitsValue(d) as int) else DigitsValue(d))
      else None
    else if s != "" && AllDigits(s) then Some(DigitsValue(s))
    else None
  }

  /** Digits with at most one decimal point and at least one digit. */
  function ParseMantissa(s: string): (r: Option<real>)
    ensures r.Some? ==> forall i :: 0 <= i < |s| ==> NumeralChar(s[i])
    ensures r.Some? ==> r.value >= 0.0
  {
    match Strings.IndexOf(s, '.')
    case None =>
      if s != "" && AllDigits(s) then Some(DigitsValue(s) as real) else None
    case Some(j) =>
      var whole := s[..j];
      var frac := s[j + 1..];
      if AllDigits(whole) && AllDigits(frac) && |whole| + |frac| > 0 then
        assert forall i :: 0 <= i < |s| && i != j ==> s[i] in whole + frac;
        var fraction := DigitsValue(frac) as real / Pow10(|frac|) as real;
        assert fraction >= 0.0;
        Some(DigitsValue(whole) as real + fraction)
      else None
  }

  function Scale(m: real, e: int): real
  {
    if e >= 0 then m * Pow10(e) as real else m / Pow10(-e) as real
  }

  /** An unsigned decimal numeral: mantissa and optional exponent. */
  function ParseUnsigned(s: string): (r: Option<real>)
    ensures r.Some? ==> forall i :: 0 <= i < |s| ==> NumeralChar(s[i])
  {
    match Seqs.FirstIndex(s, c => c == 'e' || c == 'E')
    case None => ParseMantissa(s)
    case Some(k) =>
      match (ParseMantissa(s[..k]), ParseExponent(s[k + 1..]))
      case (Some(m), Some(e)) =>
        assert forall i :: 0 <= i < |s| && i != k ==> s[i] in s[..k] + s[k + 1..];
        Some(Scale(m, e))
      case _ => None
  }

  /** A decimal numeral with an optional leading sign. */
  function ParseDecimal(s: string): (r: Option<real>)
    ensures r.Some? ==> |s| > 0 && forall i :: 0 <= i < |s| ==> NumeralChar(s[i])
  {
    if |s| > 0 && (s[0] == '+' || s[0] == '-') then
      match ParseUnsigned(s[1..])
      case None => None
      case Some(v) => Some(if s[0] == '-' then -v else v)
    else ParseUnsigned(s)
  }

  /** A plain string of digits reads as its value. */
  lemma DigitsParse(s: string)
    requires s != "" && AllDigits(s)
    ensures ParseDecimal(s) == Some(DigitsValue(s) as real)
  {
    assert Strings.IndexOf(s, '.').None?;
    assert Seqs.FirstIndex(s, c => c == 'e' || c == 'E').None?;
  }

  function LowerAscii(s: string): string
  {
    Strings.ToLower(s)
  }

  /**
   * The words strconv.ParseFloat reads as special values: "inf" and
   * "infinity" with an optional sign, and "nan" without one, in any case.
   */
  function GoSpecial(s: string): (r: Option<Float>)
    ensures r.Some? ==> exists i :: 0 <= i < |s| && !NumeralChar(s[i])
  {
    var signed := |s| > 0 && (s[0] == '+' || s[0] == '-');
    var word := LowerAscii(if signed then s[1..] else s);
    if word == "inf" || word == "infinity" then
      assert !NumeralChar(s[if signed then 1 else 0]);
      Some(Inf(signed && s[0] == '-'))
    else if !signed && word == "nan" then
      assert !NumeralChar(s[0]);
      Some(NaN)
    else None
  }

  /**
   * strconv.ParseFloat(s, 64) on decimal input: the special words, or a
   * signed decimal numeral; anything else is an error (None).
   */
  function GoParseFloat(s: string): (r: Option<Float>)
    ensures ParseDecimal(s).Some? ==> r == Some(Finite(ParseDecimal(s).value))
    ensures r == Some(NaN) <==> LowerAscii(s) == "nan"
  {
    match GoSpecial(s)
    case Some(f) => Some(f)
    case None =>
      match ParseDecimal(s)
      case Some(v) => Some(Finite(v))
      case None => None
  }

  /**
   * JavaScript's Number(s) on decimal input: surrounding whitespace is
   * ignored, the empty string is 0, "Infinity" with an optional sign is an
   * infinity, a signed decimal numeral is its value, and anything else is NaN.
   */
  function JsNumber(s: string): (r: Float)
    ensures Strings.Trim(s) == "" ==> r == Finite(0.0)
    ensures ParseDecimal(Strings.Trim(s)).Some? ==> r == Finite(ParseDecimal(Strings.Trim(s)).value)
  {
    var t := Strings.Trim(s);
    if t == "" then Finite(0.0)
    else if t == "Infinity" || t == "+Infinity" then Inf(false)
    else if t == "-Infinity" then Inf(true)
    else
      match ParseDecimal(t)
      case Some(v) => Finite(v)
      case None => NaN
  }
}
