/**
 * Number handling shared by the dashboard components: JavaScript's
 * `parseFloat(text) || 0` coercion and the decimal rendering of a whole
 * number inside a template literal (`${n}`).
 */
module Numeric {
  import opened Wrappers

  /** A numeric parser standing for `parseFloat`: `None` stands for `NaN`. */
  type Parser = string -> Option<real>

  /**
   * `parseFloat(text) || 0`: a failed parse (`NaN`, falsy) becomes 0; a parsed
   * number is kept (a parsed 0 is falsy too, but the fallback is the same 0).
   */
  function OrZero(parsed: Option<real>): (r: real)
    ensures r != 0.0 ==> parsed == Some(r)
    ensures r == 0.0 <==> parsed.None? || parsed == Some(0.0)
  {
    match parsed
    case None => 0.0
    case Some(x) => x
  }

  /** The parsed and coerced value of a text input. */
  function Coerce(parse: Parser, text: string): real {
    OrZero(parse(text))
  }

  predicate IsDigit(c: char) {
    '0' <= c <= '9'
  }

  function DigitChar(d: nat): (c: char)
    requires d < 10
    ensures IsDigit(c) && DigitValue(c) == d
  {
    "0123456789"[d]
  }

  /** The decimal text JavaScript produces for a non-negative whole number. */
  function DecimalString(n: nat): (s: string)
    ensures |s| >= 1
    ensures forall i :: 0 <= i < |s| ==> IsDigit(s[i])
    ensures s[0] == '0' <==> n == 0
    ensures n < 10 <==> |s| == 1
    decreases n
  {
    if n < 10 then [DigitChar(n)] else DecimalString(n / 10) + [DigitChar(n % 10)]
  }

  function DigitValue(c: char): (d: nat)
    requires IsDigit(c)
    ensures d < 10
  {
    (c as int) - ('0' as int)
  }

  /** The value of a string of decimal digits. */
  function DecimalValue(s: string): nat
    requires forall i :: 0 <= i < |s| ==> IsDigit(s[i])
  {
    if s == [] then 0
    else DecimalValue(s[..|s| - 1]) * 10 + DigitValue(s[|s| - 1])
  }

  /** Reading back the decimal text of `n` gives `n`. */
  lemma {:induction false} DecimalRoundTrip(n: nat)
    ensures DecimalValue(DecimalString(n)) == n
    decreases n
  {
    var s := DecimalString(n);
    if n >= 10 {
      DecimalRoundTrip(n / 10);
      assert s[..|s| - 1] == DecimalString(n / 10);
    }
  }

  /** Distinct numbers have distinct decimal texts. */
  lemma DecimalInjective(m: nat, n: nat)
    requires DecimalString(m) == DecimalString(n)
    ensures m == n
  {
    DecimalRoundTrip(m);
    DecimalRoundTrip(n);
  }
}
