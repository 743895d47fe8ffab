/** Decimal text for integers, as Swift's string interpolation writes an `Int`
    (an optional minus sign, then the digits with no leading zeros), and the
    parser that reads it back. */
module Decimal {
  import opened Optional

  function DigitChar(d: nat): (c: char)
    requires d < 10
    ensures '0' <= c <= '9'
  {
    ['0', '1', '2', '3', '4', '5', '6', '7', '8', '9'][d]
  }

  predicate IsDigit(c: char) {
    '0' <= c <= '9'
  }

  /** The value of a digit character; the parser applies it to digits only. */
  function DigitValue(c: char): int {
    c as int - '0' as int
  }

  /** Reading a digit character back gives the digit printed. */
  lemma DigitValueInverts(d: nat)
    requires d < 10
    ensures DigitValue(DigitChar(d)) == d
  {
  }

  predicate AllDigits(s: string) {
    forall k :: 0 <= k < |s| ==> IsDigit(s[k])
  }

  /** The decimal digits of `n`, most significant first. */
  function NatToDecimal(n: nat): (s: string)
    ensures |s| >= 1 && AllDigits(s)
    ensures |s| > 1 ==> s[0] != '0'
  {
    if n < 10 then [DigitChar(n)] else NatToDecimal(n / 10) + [DigitChar(n % 10)]
  }

  /** How Swift interpolates an `Int` into a string. */
  function IntToDecimal(x: int): (s: string)
    ensures |s| >= 1
    ensures x >= 0 <==> IsDigit(s[0])
    ensures x < 0 <==> s[0] == '-'
  {
    if x < 0 then "-" + NatToDecimal(-x) else NatToDecimal(x)
  }

  /** The value of a string of digits. It asks nothing of its argument, so
      that unfolding it does not unfold `AllDigits` over every prefix; the
      parser calls it only on strings of digits. */
  function DigitsValue(s: string): int
  {
    if |s| == 0 then 0 else DigitsValue(s[..|s| - 1]) * 10 + DigitValue(s[|s| - 1])
  }

  /** Reads an optionally signed decimal integer; `None` unless the whole
      string is one. */
  function ParseInt(s: string): (r: Option<int>)
    ensures r.Some? ==> |s| >= 1
  {
    if |s| >= 2 && s[0] == '-' && AllDigits(s[1..]) then Some(-DigitsValue(s[1..]))
    else if |s| >= 1 && AllDigits(s) then Some(DigitsValue(s))
    else None
  }

  lemma {:induction false} NatToDecimalValue(n: nat)
    ensures DigitsValue(NatToDecimal(n)) == n
  {
    if n >= 10 {
      var s := NatToDecimal(n);
      NatToDecimalValue(n / 10);
      assert s[..|s| - 1] == NatToDecimal(n / 10);
    }
  }

  /** A string of digits parses to its value, and with a minus sign in
      front to the negated value. */
  lemma ParseDigits(digits: string)
    requires |digits| >= 1 && AllDigits(digits)
    ensures ParseInt(digits) == Some(DigitsValue(digits))
    ensures ParseInt("-" + digits) == Some(-DigitsValue(digits))
  {
    assert digits[0] != '-';
    assert ("-" + digits)[1..] == digits;
  }

  /** Parsing undoes printing, for every integer. */
  lemma {:induction false} IntToDecimalRoundTrip(x: int)
    ensures ParseInt(IntToDecimal(x)) == Some(x)
  {
    var digits := NatToDecimal(if x < 0 then -x else x);
    NatToDecimalValue(if x < 0 then -x else x);
    ParseDigits(digits);
  }
}
