/** JavaScript value semantics the pool code relies on: `undefined`,
    numbers with NaN and the infinities, `Number(string)`, `<`,
    truthiness, `toString()` of integers and `String.prototype.substr`. */
module Js {

  datatype Option<+T> = None | Some(value: T)

  /** The outcome of an awaited call that may throw. */
  datatype Outcome<+T> = Ok(value: T) | Err(message: string)

  /** A field that may be missing, explicitly `null`, or set. */
  datatype Nullable<+T> = Undefined | Null | Present(value: T)

  /** An IEEE-754 double as far as this code can tell: a finite value,
      NaN, or one of the two infinities (rounding is not modelled). */
  datatype Num = Finite(value: real) | NaN | PosInfinity | NegInfinity

  /** JavaScript's `a < bound` for a number `a` and a finite `bound`:
      NaN compares false with everything. */
  predicate LessThan(a: Num, bound: real)
  {
    match a
    case Finite(v) => v < bound
    case NegInfinity => true
    case _ => false
  }

  /** Truthiness of an optional string: `undefined` and `''` are falsy,
      every other string (including `'0'`) is truthy. */
  predicate TruthyString(s: Option<string>)
  {
    s.Some? && s.value != ""
  }

  /** Truthiness of an optional integer: `undefined` and `0` are falsy. */
  predicate TruthyInt(n: Option<int>)
  {
    n.Some? && n.value != 0
  }

  predicate IsDigit(c: char)
  {
    '0' <= c <= '9'
  }

  predicate AllDigits(s: string)
  {
    forall i :: 0 <= i < |s| ==> IsDigit(s[i])
  }

  function DigitValue(c: char): (d: nat)
    requires IsDigit(c)
    ensures d < 10
  {
    c as int - '0' as int
  }

  function DigitChar(d: nat): (c: char)
    requires d < 10
    ensures IsDigit(c) && DigitValue(c) == d
  {
    ('0' as int + d) as char
  }

  /** The value of a string of decimal digits, most significant first. */
  function DigitsValue(s: string): nat
    requires AllDigits(s)
  {
    if s == [] then 0 else DigitsValue(s[..|s| - 1]) * 10 + DigitValue(s[|s| - 1])
  }

  function Pow10(k: nat): (r: nat)
    ensures r >= 1
  {
    if k == 0 then 1 else 10 * Pow10(k - 1)
  }

  /** Index of the first '.' in `s`, if any. */
  function DotIndex(s: string): (r: Option<nat>)
    ensures r.None? ==> '.' !in s
    ensures r.Some? ==> r.value < |s| && s[r.value] == '.' && '.' !in s[..r.value]
  {
    if s == [] then None
    else if s[0] == '.' then Some(0)
    else
      var rest := DotIndex(s[1..]);
      if rest.None? then None
      else
        assert s[..rest.value + 1] == [s[0]] + s[1..][..rest.value];
        Some(rest.value + 1)
  }

  /** An unsigned decimal literal: "Infinity", digits, or digits with one
      fractional part (either side of the dot may be empty, not both). */
  function ParseUnsigned(s: string): Num
  {
    if s == "Infinity" then PosInfinity
    else
      match DotIndex(s)
      case None =>
        if s != [] && AllDigits(s) then Finite(DigitsValue(s) as real) else NaN
      case Some(d) =>
        var whole, frac := s[..d], s[d + 1..];
        if (whole != [] || frac != []) && AllDigits(whole) && AllDigits(frac) then
          Finite((DigitsValue(whole) * Pow10(|frac|) + DigitsValue(frac)) as real / Pow10(|frac|) as real)
        else NaN
  }

  function Negate(n: Num): Num
  {
    match n
    case Finite(v) => Finite(-v)
    case PosInfinity => NegInfinity
    case NegInfinity => PosInfinity
    case NaN => NaN
  }

  /** `Number(s)` for a string: the empty string is 0, a signed decimal
      literal or "Infinity" is its value, anything else is NaN. */
  function ParseNumber(s: string): Num
  {
    if s == "" then Finite(0.0)
    else if s[0] == '-' then Negate(ParseUnsigned(s[1..]))
    else if s[0] == '+' then ParseUnsigned(s[1..])
    else ParseUnsigned(s)
  }

  /** `Number(x)` for a field holding a string or `undefined`. */
  function NumberOf(s: Option<string>): (n: Num)
    ensures s.None? ==> n == NaN
  {
    if s.None? then NaN else ParseNumber(s.value)
  }

  /** Decimal rendering of a natural number, no leading zeros. */
  function NatToString(n: nat): (s: string)
    ensures s != [] && AllDigits(s)
  {
    if n < 10 then [DigitChar(n)] else NatToString(n / 10) + [DigitChar(n % 10)]
  }

  /** `n.toString()` for an integer `n`. */
  function IntToString(n: int): string
  {
    if n < 0 then "-" + NatToString(-n) else NatToString(n)
  }

  lemma {:induction false} NatToStringValue(n: nat)
    ensures DigitsValue(NatToString(n)) == n
  {
    if n >= 10 {
      var s := NatToString(n);
      NatToStringValue(n / 10);
      assert s[..|s| - 1] == NatToString(n / 10);
    }
  }

  /** Parsing what `toString()` printed gives the integer back. */
  lemma ParseIntToString(n: int)
    ensures ParseNumber(IntToString(n)) == Finite(n as real)
  {
    var m := if n < 0 then -n else n;
    var digits := NatToString(m);
    NatToStringValue(m);
    assert digits[0] != 'I' && digits[0] != '-' && digits[0] != '+';
    assert digits != "Infinity";
    assert '.' !in digits by {
      forall i | 0 <= i < |digits| ensures digits[i] != '.' {
        assert IsDigit(digits[i]);
      }
    }
    if n < 0 {
      assert IntToString(n)[1..] == digits;
    }
  }

  /** Distinct integers print differently. */
  lemma IntToStringInjective(a: int, b: int)
    requires IntToString(a) == IntToString(b)
    ensures a == b
  {
    ParseIntToString(a);
    ParseIntToString(b);
  }

  function Min(a: int, b: int): int
  {
    if a < b then a else b
  }

  /** `s.substr(start, length)`: out-of-range bounds are clamped. */
  function Substr(s: string, start: nat, length: nat): (r: string)
    ensures |r| <= length
    ensures start + length <= |s| ==> r == s[start..start + length]
    ensures start <= |s| < start + length ==> r == s[start..]
    ensures start >= |s| ==> r == ""
  {
    s[Min(start, |s|)..Min(start + length, |s|)]
  }

  /** `s.substr(start)`: the rest of the string, or "" past its end. */
  function SubstrFrom(s: string, start: nat): (r: string)
    ensures start <= |s| ==> r == s[start..]
    ensures start >= |s| ==> r == ""
  {
    s[Min(start, |s|)..]
  }
}
