/** The JavaScript value semantics the ranking gateway relies on: the values a
    parsed JSON request body can hold, their truthiness, and `String(v)`. */
module JsValues {
  import opened Wrappers

  /** A field of the parsed request body. `Undefined` is a field the body does
      not carry. Numbers are integers in this model. */
  datatype JsValue = Undefined | Null | Bool(b: bool) | Number(n: int) | Str(s: string)

  /** JavaScript truthiness: `undefined`, `null`, `false`, `0` and `""` are falsy. */
  predicate Truthy(v: JsValue)
  {
    match v
    case Undefined => false
    case Null => false
    case Bool(b) => b
    case Number(n) => n != 0
    case Str(s) => s != ""
  }

  predicate IsDigit(c: char)
  {
    '0' <= c <= '9'
  }

  function DigitValue(c: char): (d: nat)
    requires IsDigit(c)
    ensures d < 10
  {
    c as int - '0' as int
  }

  function DigitChar(d: nat): (c: char)
    requires d < 10
    ensures IsDigit(c) && DigitValue(c) == d
  {
    ('0' as int + d) as char
  }

  /** The exact decimal numeral of `n`. JavaScript prints a non-negative
      integer this way up to 2^53; beyond that it prints rounded digits, and
      from 10^21 on exponent notation, which this model does not follow. */
  function NatToDecimal(n: nat): (s: string)
    ensures |s| > 0
    ensures forall i :: 0 <= i < |s| ==> IsDigit(s[i])
    ensures s[0] == '0' ==> n == 0
  {
    if n < 10 then [DigitChar(n)] else NatToDecimal(n / 10) + [DigitChar(n % 10)]
  }

  /** The value of a string of decimal digits. */
  function DecimalToNat(s: string): nat
    requires forall i :: 0 <= i < |s| ==> IsDigit(s[i])
  {
    if s == [] then 0
    else DecimalToNat(s[..|s| - 1]) * 10 + DigitValue(s[|s| - 1])
  }

  /** Printing a non-negative integer loses nothing: its numeral reads back as itself. */
  lemma {:induction false} NatDecimalRoundTrip(n: nat)
    ensures DecimalToNat(NatToDecimal(n)) == n
  {
    var s := NatToDecimal(n);
    if n >= 10 {
      var prefix := NatToDecimal(n / 10);
      assert s[..|s| - 1] == prefix;
      NatDecimalRoundTrip(n / 10);
    }
  }

  /** `String(n)` for an integer: a minus sign before the numeral of a negative number. */
  function IntToDecimal(n: int): (s: string)
  {
    if n < 0 then "-" + NatToDecimal(-n) else NatToDecimal(n)
  }

  /** Reads back a string produced by IntToDecimal; any other string reads as None. */
  function DecimalToInt(s: string): (r: Option<int>)
  {
    if |s| > 0 && forall i :: 0 <= i < |s| ==> IsDigit(s[i]) then Some(DecimalToNat(s) as int)
    else if |s| > 1 && s[0] == '-' && forall i :: 1 <= i < |s| ==> IsDigit(s[i]) then Some(0 - DecimalToNat(s[1..]) as int)
    else None
  }

  lemma IntDecimalRoundTrip(n: int)
    ensures IntToDecimal(n) != "" && DecimalToInt(IntToDecimal(n)) == Some(n)
  {
    var s := IntToDecimal(n);
    if n < 0 {
      assert s[1..] == NatToDecimal(-n);
      assert !IsDigit(s[0]);
      NatDecimalRoundTrip(-n);
    } else {
      NatDecimalRoundTrip(n);
    }
  }

  /** `String(v)`: the string form of a body field. A truthy field never gives
      the empty string, so a validated user id is a non-empty string. */
  function JsString(v: JsValue): (s: string)
    ensures Truthy(v) ==> s != ""
    ensures v.Str? ==> s == v.s
    ensures v.Number? ==> DecimalToInt(s) == Some(v.n)
  {
    match v
    case Undefined => "undefined"
    case Null => "null"
    case Bool(b) => if b then "true" else "false"
    case Number(n) => IntDecimalRoundTrip(n); IntToDecimal(n)
    case Str(s) => s
  }
}
