/**
 * The text the multimeter writes into its display and corner labels.
 *
 * Every value the controller shows is a reading already rounded to two
 * decimal places, so it is modelled as a whole number of hundredths. Its
 * text is the shortest plain decimal form of that value: the integer part,
 * then, only when the fraction is not zero, a point and one or two
 * fractional digits without trailing zeros ("632.46", "0.01", "1000", "0").
 */
module Readout {
  import opened Wrappers

  predicate IsDigit(c: char) {
    '0' <= c <= '9'
  }

  predicate AllDigits(s: string) {
    forall k :: 0 <= k < |s| ==> IsDigit(s[k])
  }

  /** The character of a decimal digit. */
  function Digit(d: int): (c: char)
    requires 0 <= d < 10
    ensures IsDigit(c) && c as int - '0' as int == d
  {
    ('0' as int + d) as char
  }

  /** The value of a decimal digit character. */
  function DigitValue(c: char): (d: nat)
    requires IsDigit(c)
    ensures d < 10 && Digit(d) == c
  {
    c as int - '0' as int
  }

  /** The decimal digits of `n`, most significant first, with no leading zero. */
  function NatToString(n: nat): (s: string)
    decreases n
    ensures |s| >= 1 && AllDigits(s)
    ensures (|s| == 1) == (n < 10)
    ensures s[0] == '0' ==> n == 0
  {
    if n < 10 then [Digit(n)] else NatToString(n / 10) + [Digit(n % 10)]
  }

  /** The number a string of decimal digits denotes. */
  function DigitsValue(s: string): nat
    requires AllDigits(s)
  {
    if s == [] then 0 else DigitsValue(s[..|s| - 1]) * 10 + DigitValue(s[|s| - 1])
  }

  /** Reading back the digits of `n` gives `n`. */
  lemma {:induction false} NatToStringValue(n: nat)
    ensures DigitsValue(NatToString(n)) == n
    decreases n
  {
    if n >= 10 {
      NatToStringValue(n / 10);
      var s := NatToString(n);
      assert s[..|s| - 1] == NatToString(n / 10);
    }
  }

  /** The fractional part of a value of `f` hundredths (0 <= f < 100). */
  function Fraction(f: int): (s: string)
    requires 0 <= f < 100
    ensures (s == []) == (f == 0)
    ensures |s| <= 3
    ensures s != [] ==> s[0] == '.' && s[|s| - 1] != '0' && AllDigits(s[1..])
    ensures s != [] ==> DigitsValue(s[1..]) * (if |s| == 2 then 10 else 1) == f
  {
    if f == 0 then []
    else if f % 10 == 0 then ['.', Digit(f / 10)]
    else
      var digits := [Digit(f / 10), Digit(f % 10)];
      assert DigitsValue(digits[..1]) == f / 10;
      ['.'] + digits
  }

  /**
   * The number of hundredths a reading's text denotes: decimal digits,
   * optionally followed by a point and one or two fractional digits; None
   * for any other text.
   */
  function ReadingValue(s: string): Option<nat> {
    if |s| > 3 && s[|s| - 3] == '.' && AllDigits(s[..|s| - 3]) && AllDigits(s[|s| - 2..]) then
      Some(DigitsValue(s[..|s| - 3]) * 100 + DigitsValue(s[|s| - 2..]))
    else if |s| > 2 && s[|s| - 2] == '.' && AllDigits(s[..|s| - 2]) && IsDigit(s[|s| - 1]) then
      Some(DigitsValue(s[..|s| - 2]) * 100 + DigitValue(s[|s| - 1]) * 10)
    else if |s| > 0 && AllDigits(s) then
      Some(DigitsValue(s) * 100)
    else
      None
  }

  /** The text of a reading of `h` hundredths: it reads back as `h`. */
  function Show(h: nat): (s: string)
    ensures ReadingValue(s) == Some(h)
    ensures |s| >= 1 && IsDigit(s[0])
    ensures s == "0" <==> h == 0
    ensures s[0] == '0' ==> |s| == 1 || s[1] == '.'
    ensures '.' in s ==> s[|s| - 1] != '0'
  {
    var whole, frac := NatToString(h / 100), Fraction(h % 100);
    NatToStringValue(h / 100);
    var s := whole + frac;
    if frac == [] then
      assert s == whole;
      s
    else if |frac| == 2 then
      assert s[..|s| - 2] == whole && s[|s| - 1] == frac[1];
      assert DigitsValue(frac[1..]) == DigitValue(frac[1]) by {
        assert frac[1..][..0] == [];
      }
      s
    else
      assert s[..|s| - 3] == whole && s[|s| - 2..] == frac[1..];
      s
  }
}
