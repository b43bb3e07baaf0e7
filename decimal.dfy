/**
 * Java's decimal rendering of a 32-bit `int` (what string concatenation with an
 * `int` produces), used for the suffix of the stream identifier.
 */
module Decimal {

  newtype int32 = x: int | -0x8000_0000 <= x < 0x8000_0000

  predicate IsDigit(c: char) {
    '0' <= c <= '9'
  }

  predicate AllDigits(s: string) {
    forall i :: 0 <= i < |s| ==> IsDigit(s[i])
  }

  function DigitChar(d: nat): (c: char)
    requires d < 10
    ensures IsDigit(c) && c as int - '0' as int == d
  {
    "0123456789"[d]
  }

  /** The digits of `n`, most significant first, without leading zeros. */
  function NatDigits(n: nat): (r: string)
    ensures r != [] && AllDigits(r)
    ensures |r| > 1 ==> r[0] != '0'
    decreases n
  {
    if n < 10 then [DigitChar(n)] else NatDigits(n / 10) + [DigitChar(n % 10)]
  }

  /** The value a string of decimal digits denotes; the reference reading of `NatDigits`. */
  function DigitsValue(s: string): nat
    requires AllDigits(s)
  {
    if s == [] then 0
    else
      assert IsDigit(s[|s| - 1]);
      DigitsValue(s[..|s| - 1]) * 10 + (s[|s| - 1] as int - '0' as int)
  }

  /** Reading back the digits of `n` gives `n`. */
  lemma {:induction false} NatDigitsValue(n: nat)
    ensures DigitsValue(NatDigits(n)) == n
    decreases n
  {
    if n >= 10 {
      var prefix := NatDigits(n / 10);
      var s := prefix + [DigitChar(n % 10)];
      assert s[..|s| - 1] == prefix;
      NatDigitsValue(n / 10);
    }
  }

  /** `Integer.toString(n)`: a minus sign for negative values, then the digits of |n|. */
  function IntToString(n: int32): (r: string)
    ensures r != []
    ensures r[0] == '-' <==> n < 0
    ensures AllDigits(if n < 0 then r[1..] else r)
  {
    if n < 0 then "-" + NatDigits(-(n as int)) else NatDigits(n as int)
  }

  /** The digits after the optional minus sign denote the magnitude of `n`. */
  lemma IntToStringValue(n: int32)
    ensures var r := IntToString(n);
            var digits := if n < 0 then r[1..] else r;
            AllDigits(digits) && DigitsValue(digits) == if n < 0 then -(n as int) else n as int
  {
    if n < 0 {
      NatDigitsValue(-(n as int));
      assert IntToString(n)[1..] == NatDigits(-(n as int));
    } else {
      NatDigitsValue(n as int);
    }
  }
}
