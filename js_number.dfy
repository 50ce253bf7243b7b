/** JavaScript numbers, as far as the application's arithmetic needs them: finite values
    are exact rationals, and division by zero gives an infinity or NaN instead of failing. */
module JsNumber {
  import opened Outcomes
  import opened JsText

  /** A JavaScript number. Finite values are exact (no floating-point rounding). */
  datatype Number = Finite(value: real) | NaN | Infinity(positive: bool)

  /** `a / b` on two integers, with IEEE 754 division by zero. */
  function Divide(a: int, b: int): (q: Number)
    ensures b != 0 ==> q.Finite? && q.value * b as real == a as real
    ensures b == 0 && a > 0 ==> q == Infinity(true)
    ensures b == 0 && a < 0 ==> q == Infinity(false)
    ensures b == 0 && a == 0 ==> q == NaN
  {
    if b != 0 then Finite(a as real / b as real)
    else if a > 0 then Infinity(true)
    else if a < 0 then Infinity(false)
    else NaN
  }

  /** `x * k` for a positive constant `k`. */
  function Scale(x: Number, k: real): Number
    requires k > 0.0
  {
    match x
    case Finite(v) => Finite(v * k)
    case NaN => NaN
    case Infinity(p) => Infinity(p)
  }

  /** `x >= t`: false for NaN and for negative infinity, true for positive infinity. */
  predicate AtLeast(x: Number, t: real) {
    match x
    case Finite(v) => v >= t
    case NaN => false
    case Infinity(p) => p
  }

  /** `Math.round(x)`: the integer nearest to `x`, halves rounding up. */
  function Round(x: Number): (r: Number)
    ensures x.Finite? <==> r.Finite?
    ensures x.Finite? ==> r.value == r.value.Floor as real
    ensures x.Finite? ==> x.value - 0.5 < r.value <= x.value + 0.5
    ensures !x.Finite? ==> r == x
  {
    match x
    case Finite(v) => Finite((v + 0.5).Floor as real)
    case _ => x
  }

  /** JavaScript truthiness: 0 and NaN are falsy. */
  predicate Truthy(x: Number) {
    match x
    case Finite(v) => v != 0.0
    case NaN => false
    case Infinity(_) => true
  }

  predicate IsRadixDigit(c: char, radix: nat) {
    if radix == 16 then IsDigit(c) || 'a' <= c <= 'f' || 'A' <= c <= 'F' else IsDigit(c)
  }

  function RadixDigitValue(c: char, radix: nat): (d: nat)
    requires IsRadixDigit(c, radix)
    ensures d < 16
  {
    if IsDigit(c) then DigitValue(c)
    else if 'a' <= c <= 'f' then c as int - 'a' as int + 10
    else c as int - 'A' as int + 10
  }

  /** The length of the longest prefix of `s` made of digits of the radix. */
  function DigitPrefixLength(s: string, radix: nat): (k: nat)
    ensures k <= |s|
    ensures forall i :: 0 <= i < k ==> IsRadixDigit(s[i], radix)
    ensures k < |s| ==> !IsRadixDigit(s[k], radix)
  {
    if s == [] || !IsRadixDigit(s[0], radix) then 0
    else 1 + DigitPrefixLength(s[1..], radix)
  }

  /** The value of a string of digits in the radix, most significant first. */
  function DigitsValue(s: string, radix: nat): nat
    requires forall i :: 0 <= i < |s| ==> IsRadixDigit(s[i], radix)
  {
    if s == [] then 0
    else DigitsValue(s[..|s| - 1], radix) * radix + RadixDigitValue(s[|s| - 1], radix)
  }

  /** The unsigned part of `parseInt`: a `0x` or `0X` prefix selects radix 16, and the
      longest run of digits that follows is read; `None` when there is no digit. */
  function ParseMagnitude(u: string): Option<nat> {
    var hex := StartsWith(u, "0x") || StartsWith(u, "0X");
    var radix := if hex then 16 else 10;
    var digits := if hex then u[2..] else u;
    var k := DigitPrefixLength(digits, radix);
    if k == 0 then None else Some(DigitsValue(digits[..k], radix))
  }

  /** `parseInt(s)` with no radix: leading whitespace and one sign are skipped before the
      magnitude is read; without any digit the result is NaN. */
  function ParseInt(s: string): Number {
    var t := TrimStart(s);
    var negative := t != [] && t[0] == '-';
    var u := if t != [] && (t[0] == '-' || t[0] == '+') then t[1..] else t;
    match ParseMagnitude(u)
    case None => NaN
    case Some(m) => Finite(if negative then -(m as real) else m as real)
  }

  /** The decimal digits of `n` read back give `n`. */
  lemma {:induction false} NatDigitsValue(n: nat)
    ensures DigitsValue(NatDigits(n), 10) == n
    decreases n
  {
    if n >= 10 {
      NatDigitsValue(n / 10);
      var s := NatDigits(n);
      assert s[..|s| - 1] == NatDigits(n / 10);
    }
  }

  /** A non-empty run of decimal digits is read whole, in radix 10. */
  lemma MagnitudeOfDigits(digits: string)
    requires |digits| >= 1 && forall i :: 0 <= i < |digits| ==> IsDigit(digits[i])
    ensures ParseMagnitude(digits) == Some(DigitsValue(digits, 10))
  {
    assert !(StartsWith(digits, "0x") || StartsWith(digits, "0X")) by {
      if |digits| >= 2 {
        assert IsDigit(digits[1]);
      }
    }
    assert DigitPrefixLength(digits, 10) == |digits|;
    assert digits[..|digits|] == digits;
  }

  /** The decimal digits of `m` are read back as `m`. */
  lemma MagnitudeOfNatDigits(m: nat)
    ensures ParseMagnitude(NatDigits(m)) == Some(m)
  {
    NatDigitsValue(m);
    MagnitudeOfDigits(NatDigits(m));
  }

  /** `parseInt(String(n)) === n` for every integer `n`. */
  lemma ParseIntOfDecimalString(n: int)
    ensures ParseInt(DecimalString(n)) == Finite(n as real)
  {
    var m: nat := if n < 0 then -n else n;
    MagnitudeOfNatDigits(m);
    var s := DecimalString(n);
    assert !IsWhitespace(s[0]);
    assert TrimStart(s) == s;
    if n < 0 {
      assert s[1..] == NatDigits(m);
    } else {
      assert s == NatDigits(m);
      assert IsDigit(s[0]);
    }
  }
}
