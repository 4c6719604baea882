/**
 * The two conversions between JavaScript numbers and text that the equalizer
 * relies on: `String(x)` (used by template literals such as `${x} dB` and by
 * assigning a number to a slider's `value`) and `Number(s)` (used by the slider
 * handler to read the slider's value back).
 *
 * Only the numbers the equalizer ever holds are modelled: multiples of 0.5
 * of magnitude at most 2^52.  A double holds each of them exactly, and `String`
 * writes each in plain decimal form (exponent form starts at 1e21).
 */
module JsNumber {
  import opened Wrappers

  /** 2^52: the largest magnitude of the modelled numbers. */
  const HALF_STEP_BOUND: int := 4503599627370496

  /** x is a whole multiple of 0.5 within the bound. */
  predicate IsHalfStep(x: real)
  {
    -HALF_STEP_BOUND as real <= x <= HALF_STEP_BOUND as real && (2.0 * x).Floor as real == 2.0 * x
  }

  predicate IsDigit(c: char)
  {
    '0' <= c <= '9'
  }

  predicate AllDigits(s: string)
  {
    forall i :: 0 <= i < |s| ==> IsDigit(s[i])
  }

  function DigitChar(d: nat): (c: char)
    requires d < 10
    ensures IsDigit(c) && DigitValue(c) == d
  {
    ('0' as int + d) as char
  }

  function DigitValue(c: char): nat
    requires IsDigit(c)
  {
    c as int - '0' as int
  }

  /** Decimal digits of n, most significant first, without leading zeros. */
  function IntText(n: nat): (s: string)
    ensures |s| > 0 && AllDigits(s)
    ensures |s| > 1 ==> s[0] != '0'
    decreases n
  {
    if n < 10 then [DigitChar(n)] else IntText(n / 10) + [DigitChar(n % 10)]
  }

  /** The value of a string of decimal digits, read most significant first. */
  function DigitsValue(s: string): nat
    requires AllDigits(s)
    decreases |s|
  {
    if s == [] then 0 else DigitsValue(s[..|s| - 1]) * 10 + DigitValue(s[|s| - 1])
  }

  function Pow10(k: nat): (p: nat)
    ensures p >= 1
  {
    if k == 0 then 1 else 10 * Pow10(k - 1)
  }

  /**
   * `String(x)` for a modelled number: an optional minus sign, the whole part
   * and ".5" when there is a half.  No exponent, no trailing zeros, "0" for zero.
   */
  function NumberText(x: real): (s: string)
    requires IsHalfStep(x)
    ensures |s| > 0 && IsDigit(s[|s| - 1])
    ensures s[0] == '-' <==> x < 0.0
  {
    var twice := (2.0 * x).Floor;
    if twice < 0 then "-" + HalvesText(-twice) else HalvesText(twice)
  }

  /** The unsigned text of m / 2: its whole part, then ".5" when m is odd. */
  function HalvesText(m: nat): (s: string)
    ensures |s| > 0 && IsDigit(s[0]) && IsDigit(s[|s| - 1])
  {
    if m % 2 == 1 then IntText(m / 2) + ".5" else IntText(m / 2)
  }

  /** `String(n)` for a whole number n. */
  function IntegerText(n: int): (s: string)
    ensures |s| > 0 && IsDigit(s[|s| - 1])
    ensures s[0] == '-' <==> n < 0
  {
    if n < 0 then "-" + IntText(-n) else IntText(n)
  }

  /** Position of the first '.', or |s| when there is none. */
  function DotIndex(s: string): (k: nat)
    ensures k <= |s|
    ensures k < |s| ==> s[k] == '.'
    ensures forall i :: 0 <= i < k ==> s[i] != '.'
  {
    if s == [] then 0 else if s[0] == '.' then 0 else 1 + DotIndex(s[1..])
  }

  /**
   * `Number(s)` on an unsigned decimal literal: digits, optionally followed by
   * a point and more digits, with at least one digit in all ("7", "007", "1.5",
   * "1.", ".5").  None stands for every other text, which the model does not
   * interpret.
   */
  function ParseUnsigned(s: string): (r: Option<real>)
    ensures r.Some? ==> |s| > 0 && r.value >= 0.0
  {
    var k := DotIndex(s);
    var whole := s[..k];
    if !AllDigits(whole) then None
    else if k == |s| then
      if whole == [] then None else Some(DigitsValue(whole) as real)
    else
      var fraction := s[k + 1..];
      if !AllDigits(fraction) || (whole == [] && fraction == []) then None
      else Some(DigitsValue(whole) as real + DigitsValue(fraction) as real / Pow10(|fraction|) as real)
  }

  /** `Number(s)` on a decimal literal with an optional leading minus sign. */
  function ParseDecimal(s: string): (r: Option<real>)
    ensures r.Some? ==> |s| > 0
    ensures r.Some? && r.value < 0.0 ==> s[0] == '-'
    ensures r.Some? && s[0] == '-' ==> r.value <= 0.0
  {
    if |s| > 0 && s[0] == '-' then
      match ParseUnsigned(s[1..])
      case Some(v) => Some(-v)
      case None => None
    else ParseUnsigned(s)
  }

  lemma {:induction false} DigitsRoundTrip(n: nat)
    ensures DigitsValue(IntText(n)) == n
    decreases n
  {
    if n >= 10 {
      var s := IntText(n);
      assert s[..|s| - 1] == IntText(n / 10);
      DigitsRoundTrip(n / 10);
    }
  }

  lemma DotIndexOfDigits(s: string, t: string)
    requires AllDigits(s)
    ensures DotIndex(s + t) == |s| + DotIndex(t)
    decreases |s|
  {
    if s != [] {
      assert (s + t)[0] == s[0] && s[0] != '.';
      assert (s + t)[1..] == s[1..] + t;
      DotIndexOfDigits(s[1..], t);
    } else {
      assert s + t == t;
    }
  }

  lemma HalfOf(m: nat)
    ensures m as real / 2.0 == (m / 2) as real + (if m % 2 == 1 then 0.5 else 0.0)
  {
    var q, r := m / 2, m % 2;
    assert m == 2 * q + r;
    assert m as real == 2.0 * q as real + r as real;
  }

  lemma WholeDigitsRoundTrip(q: nat)
    ensures ParseUnsigned(IntText(q)) == Some(q as real)
  {
    var digits := IntText(q);
    DigitsRoundTrip(q);
    DotIndexOfDigits(digits, "");
    assert digits + "" == digits;
    assert digits[..|digits|] == digits;
  }

  lemma HalfDigitsRoundTrip(q: nat)
    ensures ParseUnsigned(IntText(q) + ".5") == Some(q as real + 0.5)
  {
    var digits := IntText(q);
    var s := digits + ".5";
    DigitsRoundTrip(q);
    DotIndexOfDigits(digits, ".5");
    assert s[..|digits|] == digits;
    assert s[|digits| + 1..] == "5";
    assert DigitsValue("5") == 5 by {
      assert "5"[..0] == [];
    }
  }

  /** The unsigned text of m / 2 reads back as m / 2. */
  lemma HalvesRoundTrip(m: nat)
    ensures ParseUnsigned(HalvesText(m)) == Some(m as real / 2.0)
  {
    HalfOf(m);
    if m % 2 == 1 {
      HalfDigitsRoundTrip(m / 2);
    } else {
      WholeDigitsRoundTrip(m / 2);
    }
  }

  lemma TwiceWhole(n: int)
    ensures (2.0 * n as real).Floor == 2 * n
  {
    assert 2.0 * n as real == (2 * n) as real;
  }

  lemma HalvesOfEven(n: nat)
    ensures HalvesText(2 * n) == IntText(n)
  {
    var m := 2 * n;
    assert m % 2 == 0 && m / 2 == n;
  }

  /** Whole numbers are half steps, and are shown without a fraction. */
  lemma WholeText(n: int)
    requires -HALF_STEP_BOUND <= n <= HALF_STEP_BOUND
    ensures IsHalfStep(n as real)
    ensures NumberText(n as real) == IntegerText(n)
  {
    var x := n as real;
    TwiceWhole(n);
    assert (2.0 * x).Floor == 2 * n;
    if n < 0 {
      assert NumberText(x) == "-" + HalvesText(-2 * n);
      HalvesOfEven(-n);
    } else {
      assert NumberText(x) == HalvesText(2 * n);
      HalvesOfEven(n);
    }
  }

  /** m / 2 is a half step, and is shown as the unsigned text of m halves. */
  lemma HalvesNumberText(m: nat)
    requires m <= 2 * HALF_STEP_BOUND
    ensures IsHalfStep(m as real / 2.0)
    ensures NumberText(m as real / 2.0) == HalvesText(m)
  {
    var x := m as real / 2.0;
    assert 2.0 * x == m as real;
    assert (m as real).Floor == m;
  }

  /** The text of a gain is a sign followed by the unsigned text of twice its magnitude. */
  lemma NumberTextParts(x: real) returns (magnitude: nat)
    requires IsHalfStep(x)
    ensures NumberText(x) == if x < 0.0 then "-" + HalvesText(magnitude) else HalvesText(magnitude)
    ensures magnitude as real == (if x < 0.0 then -2.0 * x else 2.0 * x)
  {
    var twice := (2.0 * x).Floor;
    assert twice as real == 2.0 * x;
    magnitude := if twice < 0 then -twice else twice;
  }

  /** Reading back the text of a gain with `Number` gives the same gain. */
  lemma {:induction false} NumberTextRoundTrip(x: real)
    requires IsHalfStep(x)
    ensures ParseDecimal(NumberText(x)) == Some(x)
  {
    var magnitude := NumberTextParts(x);
    var unsigned := HalvesText(magnitude);
    HalvesRoundTrip(magnitude);
    assert unsigned[0] == IntText(magnitude / 2)[0];
    if x < 0.0 {
      assert NumberText(x)[1..] == unsigned;
    }
  }

  /** Distinct gains are shown as distinct texts. */
  lemma NumberTextInjective(x: real, y: real)
    requires IsHalfStep(x) && IsHalfStep(y)
    requires NumberText(x) == NumberText(y)
    ensures x == y
  {
    NumberTextRoundTrip(x);
    NumberTextRoundTrip(y);
  }
}
