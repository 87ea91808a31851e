/** Decimal text of integers, as JavaScript template literals print an
    integral number (`${42}` is "42", `${-7}` is "-7"), and the reading of
    such text back into a number. */
module Decimal {

  predicate IsDigit(c: char) {
    '0' <= c <= '9'
  }

  predicate AllDigits(s: string) {
    forall i :: 0 <= i < |s| ==> IsDigit(s[i])
  }

  function DigitChar(d: nat): (c: char)
    requires d < 10
    ensures IsDigit(c) && c as int - '0' as int == d
  {
    ('0' as int + d) as char
  }

  /** Shortest decimal text of `n`: no leading zero except for 0 itself. */
  function NatToString(n: nat): (s: string)
    ensures |s| >= 1 && AllDigits(s)
    ensures s[0] == '0' <==> n == 0
    ensures |s| == 1 <==> n < 10
  {
    if n < 10 then [DigitChar(n)] else NatToString(n / 10) + [DigitChar(n % 10)]
  }

  /** Value of a string of decimal digits, most significant first. */
  function DigitsValue(s: string): nat
    requires AllDigits(s)
  {
    if s == [] then 0
    else DigitsValue(s[..|s| - 1]) * 10 + (s[|s| - 1] as int - '0' as int)
  }

  lemma {:induction false} NatToStringRoundTrip(n: nat)
    ensures DigitsValue(NatToString(n)) == n
  {
    if n >= 10 {
      var s := NatToString(n);
      assert s[..|s| - 1] == NatToString(n / 10);
      NatToStringRoundTrip(n / 10);
    }
  }

  /** Two different numbers never print the same. */
  lemma NatToStringInjective(m: nat, n: nat)
    requires NatToString(m) == NatToString(n)
    ensures m == n
  {
    NatToStringRoundTrip(m);
    NatToStringRoundTrip(n);
  }

  /** `s` reads as the integer `n`: an optional "-" sign, then digits with
      no leading zero other than "0" itself, whose value is the magnitude. */
  predicate IsDecimalOf(s: string, n: int) {
    if |s| > 0 && s[0] == '-' then
      n < 0 && |s| > 1 && AllDigits(s[1..]) && s[1] != '0' && DigitsValue(s[1..]) == -n
    else
      |s| > 0 && AllDigits(s) && (s[0] == '0' ==> |s| == 1) && DigitsValue(s) == n
  }

  /** The text of any integer: a "-" before the digits of a negative one. */
  function IntToString(n: int): (s: string)
    ensures |s| > 0
  {
    if n < 0 then "-" + NatToString(-n) else NatToString(n)
  }

  /** The text of an integer reads back as that integer. */
  lemma IntToStringReadsBack(n: int)
    ensures IsDecimalOf(IntToString(n), n)
  {
    if n < 0 {
      NegativeReadsBack(-n);
    } else {
      NatToStringRoundTrip(n);
      var s := NatToString(n);
      assert IsDigit(s[0]);
    }
  }

  lemma NegativeReadsBack(m: nat)
    requires m > 0
    ensures IsDecimalOf("-" + NatToString(m), -(m as int))
  {
    var digits := NatToString(m);
    NatToStringRoundTrip(m);
    var s := "-" + digits;
    assert s[0] == '-' && s[1..] == digits;
  }

  /** Different integers never print the same. */
  lemma IntToStringInjective(m: int, n: int)
    requires IntToString(m) == IntToString(n)
    ensures m == n
  {
    IntToStringReadsBack(m);
    IntToStringReadsBack(n);
  }
}
