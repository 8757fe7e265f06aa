/**
 * Swift's `String(n)` for an `Int`: an optional minus sign followed by the
 * decimal digits, without leading zeros.  Used wherever the source
 * interpolates an integer into text (CSV lines, rounded health percentages).
 */
module Decimal {

  function DigitChar(d: nat): (c: char)
    requires d < 10
    ensures '0' <= c <= '9'
  {
    ['0', '1', '2', '3', '4', '5', '6', '7', '8', '9'][d]
  }

  function DigitValue(c: char): (d: nat)
    requires '0' <= c <= '9'
    ensures d < 10
  {
    (c as int) - ('0' as int)
  }

  /** The digits of a natural number, most significant first. */
  function NatToDigits(n: nat): (s: string)
    decreases n
  {
    if n < 10 then [DigitChar(n)] else NatToDigits(n / 10) + [DigitChar(n % 10)]
  }

  function IntToDecimal(n: int): (s: string) {
    if n < 0 then "-" + NatToDigits((-n) as nat) else NatToDigits(n)
  }

  predicate AllDigits(s: string) {
    forall k :: 0 <= k < |s| ==> '0' <= s[k] <= '9'
  }

  /** A well-formed rendering of an integer. */
  predicate IsDecimal(s: string) {
    if |s| > 0 && s[0] == '-' then |s| > 1 && AllDigits(s[1..]) else |s| > 0 && AllDigits(s)
  }

  /** Reads a run of digits back as a natural number. */
  function DigitsToNat(s: string): (n: nat)
    requires AllDigits(s)
    decreases |s|
  {
    if s == [] then 0 else DigitsToNat(s[..|s| - 1]) * 10 + DigitValue(s[|s| - 1])
  }

  function ParseDecimal(s: string): (n: int)
    requires IsDecimal(s)
  {
    if s[0] == '-' then -(DigitsToNat(s[1..]) as int) else DigitsToNat(s)
  }

  lemma {:induction false} NatToDigitsWellFormed(n: nat)
    ensures |NatToDigits(n)| > 0 && AllDigits(NatToDigits(n))
    ensures NatToDigits(n)[0] != '0' || n == 0
    ensures DigitsToNat(NatToDigits(n)) == n
    decreases n
  {
    if n >= 10 {
      NatToDigitsWellFormed(n / 10);
      var s := NatToDigits(n);
      assert s[..|s| - 1] == NatToDigits(n / 10);
    }
  }

  /** Every rendered integer is well formed and reads back as itself. */
  lemma {:induction false} DecimalRoundTrip(n: int)
    ensures IsDecimal(IntToDecimal(n))
    ensures ParseDecimal(IntToDecimal(n)) == n
  {
    if n < 0 {
      NatToDigitsWellFormed(-n);
      assert IntToDecimal(n)[1..] == NatToDigits(-n);
    } else {
      NatToDigitsWellFormed(n);
    }
  }
}
