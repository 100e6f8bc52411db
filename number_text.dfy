/**
 * Decimal text of integers, as a template literal renders a whole number,
 * and the reading that recovers the number from that text.
 */
module NumberText {
  import opened ServerTypes

  predicate IsDigit(c: char)
  {
    '0' <= c <= '9'
  }

  predicate AllDigits(s: string)
  {
    forall k :: 0 <= k < |s| ==> IsDigit(s[k])
  }

  function DigitChar(d: nat): (c: char)
    requires d < 10
    ensures IsDigit(c)
  {
    (d + '0' as int) as char
  }

  function DigitValue(c: char): (d: nat)
    requires IsDigit(c)
    ensures d < 10 && DigitChar(d) == c
  {
    (c as int - '0' as int)
  }

  /** The shortest decimal text of a natural number (no leading zeros). */
  function NatText(n: nat): (s: string)
    ensures |s| >= 1 && AllDigits(s)
    ensures (|s| > 1 ==> s[0] != '0')
    decreases n
  {
    if n < 10 then [DigitChar(n)] else NatText(n / 10) + [DigitChar(n % 10)]
  }

  /** The value of a string of digits, read most significant first. */
  function DigitsValue(s: string): nat
    requires AllDigits(s)
    decreases |s|
  {
    if s == [] then 0 else DigitsValue(s[..|s| - 1]) * 10 + DigitValue(s[|s| - 1])
  }

  /** Decimal text of an integer: a minus sign before the magnitude of a negative one. */
  function IntText(n: int): (s: string)
    ensures |s| >= 1
  {
    if n < 0 then "-" + NatText(-n) else NatText(n)
  }

  /** Reads an optional minus sign followed by at least one digit. */
  function ParseInt(s: string): Option<int>
  {
    if |s| >= 2 && s[0] == '-' && AllDigits(s[1..]) then
      var magnitude: int := DigitsValue(s[1..]);
      Some(-magnitude)
    else if |s| >= 1 && AllDigits(s) then
      var value: int := DigitsValue(s);
      Some(value)
    else None
  }

  lemma {:induction false} NatTextValue(n: nat)
    ensures DigitsValue(NatText(n)) == n
    decreases n
  {
    var s := NatText(n);
    if n >= 10 {
      NatTextValue(n / 10);
      assert s[..|s| - 1] == NatText(n / 10);
      assert s[|s| - 1] == DigitChar(n % 10);
    }
  }

  /** Reading the text of an integer gives that integer back. */
  lemma IntTextRoundTrip(n: int)
    ensures ParseInt(IntText(n)) == Some(n)
  {
    var s := IntText(n);
    if n < 0 {
      assert s[1..] == NatText(-n);
      NatTextValue(-n);
      assert s[0] == '-';
    } else {
      assert s == NatText(n);
      assert !IsDigit('-');
      NatTextValue(n);
    }
  }

  /** A duration rendered as the number followed by the unit "s". */
  function SecondsText(n: int): (t: string)
    ensures |t| >= 2 && t[|t| - 1] == 's'
  {
    IntText(n) + "s"
  }

  /** The number in front of the unit "s", if the text is a number of seconds. */
  function ParseSeconds(t: string): Option<int>
  {
    if |t| >= 1 && t[|t| - 1] == 's' then ParseInt(t[..|t| - 1]) else None
  }

  /** Storing a duration as text loses nothing: the number can be read back. */
  lemma SecondsTextRoundTrip(n: int)
    ensures ParseSeconds(SecondsText(n)) == Some(n)
  {
    assert SecondsText(n)[..|SecondsText(n)| - 1] == IntText(n);
    IntTextRoundTrip(n);
  }
}
