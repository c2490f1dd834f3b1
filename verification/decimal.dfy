/**
  The decimal text of integers: no leading zeros, a leading '-' for
  negatives. This is what ECMAScript's Number-to-String writes for an
  integral Number of magnitude below 10^21; from 10^21 on it writes exponent
  form, which this model does not. It is
  used both when JSON.stringify writes a number and when a numeric window id
  becomes an object property key.
 */
module Decimal {

  predicate IsDigit(c: char) {
    '0' <= c <= '9'
  }

  predicate AllDigits(s: string) {
    forall i | 0 <= i < |s| :: IsDigit(s[i])
  }

  function DigitValue(c: char): (d: nat)
    requires IsDigit(c)
    ensures d < 10
  {
    c as int - '0' as int
  }

  function DigitChar(d: nat): (c: char)
    requires d < 10
    ensures IsDigit(c) && DigitValue(c) == d
  {
    ('0' as int + d) as char
  }

  /** The shortest decimal numeral of `n`. */
  function NatToDecimal(n: nat): (s: string)
    ensures |s| > 0 && AllDigits(s)
    ensures s[0] == '0' <==> n == 0
    ensures n == 0 ==> s == "0"
    decreases n
  {
    if n < 10 then [DigitChar(n)] else NatToDecimal(n / 10) + [DigitChar(n % 10)]
  }

  function IntToDecimal(n: int): (s: string)
    ensures |s| > 0
    ensures n < 0 <==> s[0] == '-'
  {
    if n < 0 then "-" + NatToDecimal(-n) else NatToDecimal(n)
  }

  /** The value a numeral denotes, read most significant digit first. */
  function DigitsValue(s: string): nat
    requires AllDigits(s)
  {
    if |s| == 0 then 0 else DigitsValue(s[..|s| - 1]) * 10 + DigitValue(s[|s| - 1])
  }

  /** Reading the numeral of `n` gives back `n`. */
  lemma {:induction false} DecimalRoundTrip(n: nat)
    ensures DigitsValue(NatToDecimal(n)) == n
    decreases n
  {
    var s := NatToDecimal(n);
    if n >= 10 {
      DecimalRoundTrip(n / 10);
      assert s[..|s| - 1] == NatToDecimal(n / 10);
    }
  }

  /** Distinct naturals have distinct numerals. */
  lemma NatToDecimalInjective(m: nat, n: nat)
    ensures NatToDecimal(m) == NatToDecimal(n) ==> m == n
  {
    DecimalRoundTrip(m);
    DecimalRoundTrip(n);
  }

  /** Distinct integers have distinct numerals. */
  lemma IntToDecimalInjective(m: int, n: int)
    ensures IntToDecimal(m) == IntToDecimal(n) ==> m == n
  {
    if IntToDecimal(m) == IntToDecimal(n) {
      if m < 0 {
        assert IntToDecimal(m)[1..] == NatToDecimal(-m);
        assert IntToDecimal(n)[1..] == NatToDecimal(-n);
      }
      NatToDecimalInjective(if m < 0 then -m else m, if n < 0 then -n else n);
    }
  }
}
