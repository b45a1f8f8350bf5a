/**
 * Python's `str(int)` and `int(str)` on decimal numerals.  The player writes the
 * loop count into its command lines and into the pipeline descriptor with
 * `str(...)` (play.py:139, play.py:151, play.py:161) and reads the descriptor's
 * copy back with `int(...)` (play.py:282).
 */
module Decimal {
  import opened Wrappers

  predicate IsDigit(c: char) {
    '0' <= c <= '9'
  }

  /** A non-empty run of decimal digits. */
  predicate AllDigits(s: string) {
    |s| >= 1 && forall i :: 0 <= i < |s| ==> IsDigit(s[i])
  }

  function DigitChar(d: nat): (c: char)
    requires d < 10
    ensures IsDigit(c) && DigitValue(c) == d
  {
    ('0' as int + d) as char
  }

  function DigitValue(c: char): nat
    requires IsDigit(c)
  {
    c as int - '0' as int
  }

  /** The numeral of a natural number: digits only, no leading zero. */
  function NatToString(n: nat): (s: string)
    ensures AllDigits(s)
    ensures (s[0] == '0') == (n == 0)
    ensures n < 10 <==> |s| == 1
  {
    if n < 10 then [DigitChar(n)] else NatToString(n / 10) + [DigitChar(n % 10)]
  }

  /** Python's `str(i)` for an int: a minus sign before the numeral of a negative number. */
  function IntToString(i: int): (s: string)
    ensures |s| >= 1
    ensures i >= 0 <==> AllDigits(s)
    ensures i < 0 <==> s[0] == '-'
  {
    if i < 0 then
      var s := "-" + NatToString(-i);
      assert s[0] == '-' && !IsDigit(s[0]);
      s
    else NatToString(i)
  }

  /** The value of a run of digits, most significant first. */
  function DigitsValue(s: string): nat
    requires forall i :: 0 <= i < |s| ==> IsDigit(s[i])
  {
    if s == [] then 0 else DigitsValue(s[..|s| - 1]) * 10 + DigitValue(s[|s| - 1])
  }

  /**
   * Python's `int(s)` restricted to the forms `str` produces: an optional minus
   * sign followed by digits.  Anything else is `None` (Python raises ValueError).
   */
  function ParseInt(s: string): Option<int> {
    if |s| >= 1 && s[0] == '-' then
      if AllDigits(s[1..]) then Some(0 - DigitsValue(s[1..]) as int) else None
    else if AllDigits(s) then Some(DigitsValue(s))
    else None
  }

  lemma {:induction false} NatRoundTrip(n: nat)
    ensures DigitsValue(NatToString(n)) == n
  {
    if n >= 10 {
      var s := NatToString(n / 10);
      var t := s + [DigitChar(n % 10)];
      assert t[..|t| - 1] == s;
      NatRoundTrip(n / 10);
    }
  }

  /** Reading back what `str` wrote gives the same integer: `int(str(i)) == i`. */
  lemma IntRoundTrip(i: int)
    ensures ParseInt(IntToString(i)) == Some(i)
  {
    if i < 0 {
      var t := NatToString(-i);
      var s := "-" + t;
      assert s == IntToString(i);
      assert s[0] == '-' && s[1..] == t;
      NatRoundTrip(-i);
      assert ParseInt(s) == Some(0 - DigitsValue(t) as int);
    } else {
      var t := NatToString(i);
      assert t == IntToString(i);
      assert t[0] != '-';
      NatRoundTrip(i);
      assert ParseInt(t) == Some(DigitsValue(t));
    }
  }
}
