/**
 * The few JavaScript value semantics the client code relies on: the values
 * that can sit in a parameter object, `String(value)`, integer-to-decimal
 * conversion, `Number.parseInt` in base 10, and `String.prototype.includes`.
 * JavaScript numbers are modelled by their integer values; floating point is
 * not part of this model.
 */
module Js {
  import opened Wrappers

  /** A value found in an untyped parameter object (`params?: any`). */
  datatype Value = Undefined | Null | Str(s: string) | Num(n: int) | NaN

  /**
   * A thrown value: a `TypeError`, another `Error` (including a `SyntaxError`
   * from `response.json()`), or something that is not an `Error` at all.
   */
  datatype Thrown = ThrownTypeError(message: string) | ThrownError(message: string) | ThrownOther

  /** `error instanceof Error`: a `TypeError` is an `Error` too. */
  predicate IsErrorInstance(e: Thrown) {
    e.ThrownTypeError? || e.ThrownError?
  }

  predicate IsDigit(c: char) {
    '0' <= c <= '9'
  }

  predicate AllDigits(s: string) {
    forall i :: 0 <= i < |s| ==> IsDigit(s[i])
  }

  function DigitChar(d: nat): (c: char)
    requires d < 10
    ensures IsDigit(c)
  {
    (48 + d) as char
  }

  function DigitValue(c: char): (d: nat)
    requires IsDigit(c)
    ensures d < 10
  {
    (c as int) - 48
  }

  /** The decimal digits of `n`, most significant first, without leading zeros. */
  function NatToString(n: nat): (s: string)
    ensures |s| > 0 && AllDigits(s)
    ensures s[0] == '0' ==> n == 0
    decreases n
  {
    if n < 10 then [DigitChar(n)] else NatToString(n / 10) + [DigitChar(n % 10)]
  }

  /** `String(i)` for an integral number `i`. */
  function IntToString(i: int): (s: string)
    ensures |s| > 0
    ensures i < 0 <==> s[0] == '-'
  {
    if i < 0 then "-" + NatToString(-i) else NatToString(i)
  }

  /** `String(value)`: total, never throws. */
  function String(v: Value): string {
    match v
    case Undefined => "undefined"
    case Null => "null"
    case Str(s) => s
    case Num(n) => IntToString(n)
    case NaN => "NaN"
  }

  /** The value of a string of decimal digits, most significant first. */
  function DigitsValue(d: string): nat
    requires AllDigits(d)
  {
    if |d| == 0 then 0 else DigitsValue(d[..|d| - 1]) * 10 + DigitValue(d[|d| - 1])
  }

  /** The longest prefix of `s` made of decimal digits. */
  function DigitPrefix(s: string): (d: string)
    ensures AllDigits(d) && d <= s
  {
    if s == [] || !IsDigit(s[0]) then [] else [s[0]] + DigitPrefix(s[1..])
  }

  /**
   * `Number.parseInt(s)` in base 10 for a string without leading white space:
   * an optional sign, then the longest run of digits; `None` stands for NaN,
   * the result when no digit follows the sign.
   */
  function ParseInt(s: string): Option<int> {
    var signed := |s| > 0 && (s[0] == '-' || s[0] == '+');
    var digits := DigitPrefix(if signed then s[1..] else s);
    var magnitude: int := DigitsValue(digits);
    if digits == [] then None
    else if signed && s[0] == '-' then Some(-magnitude)
    else Some(magnitude)
  }

  lemma {:induction false} DigitsValueOfNatToString(n: nat)
    ensures DigitsValue(NatToString(n)) == n
    decreases n
  {
    if n >= 10 {
      var s := NatToString(n);
      assert s[..|s| - 1] == NatToString(n / 10);
      DigitsValueOfNatToString(n / 10);
    }
  }

  lemma {:induction false} DigitPrefixOfDigits(s: string)
    requires AllDigits(s)
    ensures DigitPrefix(s) == s
  {
    if s != [] {
      assert AllDigits(s[1..]) by {
        forall i | 0 <= i < |s[1..]| ensures IsDigit(s[1..][i]) {
          assert s[1..][i] == s[i + 1];
        }
      }
      DigitPrefixOfDigits(s[1..]);
    }
  }

  /** `Number.parseInt(String(i)) === i` for every integer `i`. */
  lemma ParseIntOfIntToString(i: int)
    ensures ParseInt(IntToString(i)) == Some(i)
  {
    var m: nat := if i < 0 then -i else i;
    var digits := NatToString(m);
    DigitPrefixOfDigits(digits);
    DigitsValueOfNatToString(m);
    if i < 0 {
      assert IntToString(i)[1..] == digits;
    }
  }

  /** `s.includes(t)`. */
  predicate Contains(s: string, t: string)
    decreases |s|
  {
    t <= s || (s != [] && Contains(s[1..], t))
  }

  lemma {:induction false} ContainsMiddle(a: string, t: string, b: string)
    ensures Contains(a + t + b, t)
    decreases |a|
  {
    if a != [] {
      assert (a + t + b)[1..] == a[1..] + t + b;
      ContainsMiddle(a[1..], t, b);
    }
  }
}
