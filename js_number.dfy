/**
 * The parts of JavaScript's number semantics the trade-plan builder relies on,
 * stated over exact reals: `Math.round`, `parseFloat(x.toFixed(2))` and the
 * decimal text of an integer as produced by template-string interpolation.
 * Binary floating point is not modelled: every value is the exact real the
 * source's expression denotes.
 */
module JsNumber {
  import opened Wrappers

  function Abs(x: real): real
  {
    if x < 0.0 then -x else x
  }

  function Max(a: real, b: real): (m: real)
    ensures m >= a && m >= b && (m == a || m == b)
  {
    if a >= b then a else b
  }

  function MinInt(a: int, b: int): (m: int)
    ensures m <= a && m <= b && (m == a || m == b)
  {
    if a <= b then a else b
  }

  function MaxInt(a: int, b: int): int
  {
    if a >= b then a else b
  }

  /** `Math.round`: the nearest integer, halves rounded towards +infinity. */
  function Round(x: real): (n: int)
    ensures x - 0.5 < n as real <= x + 0.5
  {
    (x + 0.5).Floor
  }

  /** The two inequalities of Round's contract pin the integer down. */
  lemma RoundUnique(x: real, n: int)
    requires x - 0.5 < n as real <= x + 0.5
    ensures Round(x) == n
  {
  }

  lemma RoundShift(x: real, k: int)
    ensures Round(x + k as real) == Round(x) + k
  {
    RoundUnique(x + k as real, Round(x) + k);
  }

  lemma RoundMonotone(x: real, y: real)
    requires x <= y
    ensures Round(x) <= Round(y)
  {
  }

  /** A real with no digits beyond the second decimal place. */
  predicate IsCents(r: real)
  {
    (r * 100.0).Floor as real == r * 100.0
  }

  /**
   * `parseFloat(x.toFixed(2))`: the multiple of 1/100 nearest to `x`.
   * `toFixed` sets the sign aside and then picks the larger of two equally
   * near candidates, so halves are rounded away from zero.
   */
  function ToFixed2(x: real): (r: real)
    ensures IsCents(r)
    ensures Abs(r - x) <= 0.005
    ensures 0.0 <= x ==> x - 0.005 < r <= x + 0.005
    ensures x < 0.0 ==> x - 0.005 <= r < x + 0.005
  {
    var cents := if x < 0.0 then -Round(-x * 100.0) else Round(x * 100.0);
    assert (cents as real / 100.0) * 100.0 == cents as real;
    cents as real / 100.0
  }

  /** The value of a non-negative real rounded to cents, as a whole number of cents. */
  lemma ToFixed2Cents(x: real)
    requires 0.0 <= x
    ensures ToFixed2(x) == Round(x * 100.0) as real / 100.0
  {
  }

  /** Rounding to cents preserves order, on either side of zero. */
  lemma ToFixed2Monotone(x: real, y: real)
    requires x <= y
    ensures ToFixed2(x) <= ToFixed2(y)
  {
    if 0.0 <= x {
      RoundMonotone(x * 100.0, y * 100.0);
    } else if y < 0.0 {
      RoundMonotone(-y * 100.0, -x * 100.0);
    }
  }

  /** Rounding to cents keeps apart two non-negative values at least a cent apart. */
  lemma {:induction false} ToFixed2Separates(x: real, y: real)
    requires 0.0 <= x && x + 0.01 <= y
    ensures ToFixed2(x) + 0.01 <= ToFixed2(y)
  {
    RoundShift(x * 100.0, 1);
    RoundMonotone(x * 100.0 + 1.0, y * 100.0);
    ToFixed2Cents(x);
    ToFixed2Cents(y);
  }

  /** A value already in cents is left as it is. */
  lemma ToFixed2OfCents(x: real)
    requires IsCents(x)
    ensures ToFixed2(x) == x
  {
    var c := (x * 100.0).Floor;
    if x < 0.0 {
      RoundUnique(-x * 100.0, -c);
    } else {
      RoundUnique(x * 100.0, c);
    }
  }

  // Decimal text of integers.

  predicate IsDigit(c: char)
  {
    '0' <= c <= '9'
  }

  predicate AllDigits(s: string)
  {
    forall i :: 0 <= i < |s| ==> IsDigit(s[i])
  }

  function DigitChar(d: nat): (c: char)
    requires d < 10
    ensures IsDigit(c) && c as int - '0' as int == d
  {
    ('0' as int + d) as char
  }

  function DigitValue(c: char): (d: nat)
    requires IsDigit(c)
    ensures d < 10
  {
    c as int - '0' as int
  }

  /** The shortest decimal numeral of `n`: digits only, and no leading zero. */
  function NatToString(n: nat): (s: string)
    ensures |s| >= 1 && AllDigits(s)
    ensures s[0] == '0' <==> n == 0
    ensures n < 10 <==> |s| == 1
    decreases n
  {
    if n < 10 then [DigitChar(n)] else NatToString(n / 10) + [DigitChar(n % 10)]
  }

  /**
   * `${n}` for an integer `n`: a minus sign before the digits of a negative
   * number. The text reads back as `n`.
   */
  function IntToString(n: int): (s: string)
    ensures ParseInt(s) == Some(n)
    ensures |s| >= 1 && (s[0] == '-' <==> n < 0)
  {
    if n < 0 then
      ParseNegative(-n);
      "-" + NatToString(-n)
    else
      ParseNatural(n);
      NatToString(n)
  }

  /** The number a string of decimal digits denotes. */
  function DigitsValue(s: string): nat
    requires AllDigits(s)
    decreases |s|
  {
    if |s| == 0 then 0 else DigitsValue(s[..|s| - 1]) * 10 + DigitValue(s[|s| - 1])
  }

  /** Reads an optionally signed decimal integer; anything else is rejected. */
  function ParseInt(s: string): Option<int>
  {
    if |s| > 1 && s[0] == '-' && AllDigits(s[1..]) then Some(-(DigitsValue(s[1..]) as int))
    else if |s| > 0 && AllDigits(s) then Some(DigitsValue(s))
    else None
  }

  lemma {:induction false} NatToStringValue(n: nat)
    ensures DigitsValue(NatToString(n)) == n
    decreases n
  {
    var s := NatToString(n);
    if n >= 10 {
      NatToStringValue(n / 10);
      assert s[..|s| - 1] == NatToString(n / 10);
      assert s[|s| - 1] == DigitChar(n % 10);
    }
  }

  /** The digits of `n` read back as `n`. */
  lemma ParseNatural(n: nat)
    ensures ParseInt(NatToString(n)) == Some(n)
  {
    var s := NatToString(n);
    assert IsDigit(s[0]);
    NatToStringValue(n);
  }

  /** A minus sign before the digits of a positive `n` reads back as `-n`. */
  lemma ParseNegative(n: nat)
    requires n > 0
    ensures ParseInt("-" + NatToString(n)) == Some(-(n as int))
  {
    var s := "-" + NatToString(n);
    assert s[1..] == NatToString(n);
    NatToStringValue(n);
  }

  lemma IntToStringInjective(m: int, n: int)
    requires IntToString(m) == IntToString(n)
    ensures m == n
  {
    assert ParseInt(IntToString(m)) == Some(m);
  }
}
