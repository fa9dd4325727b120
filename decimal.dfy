/** The decimal rendering Java's string concatenation applies to an Integer
    ("p = " + 12 gives "p = 12"), and a parser that undoes it. */
module Decimal {

  import opened Base

  predicate IsDigit(c: char) {
    '0' <= c <= '9'
  }

  function DigitChar(d: nat): (c: char)
    requires d < 10
    ensures IsDigit(c) && c as int - '0' as int == d
  {
    ('0' as int + d) as char
  }

  function DigitValue(c: char): (d: nat)
    requires IsDigit(c)
    ensures d < 10 && DigitChar(d) == c
  {
    c as int - '0' as int
  }

  /** Decimal digits of n, most significant first, with no leading zero. */
  function NatToString(n: nat): (s: string)
    ensures |s| > 0
    ensures forall i :: 0 <= i < |s| ==> IsDigit(s[i])
    ensures n < 10 <==> |s| == 1
    ensures s[0] == '0' <==> n == 0
    decreases n
  {
    if n < 10 then [DigitChar(n)] else NatToString(n / 10) + [DigitChar(n % 10)]
  }

  /** Integer.toString: a minus sign in front of the digits of a negative value. */
  function IntToString(n: int): (s: string)
    ensures |s| > 0
    ensures forall i :: 0 <= i < |s| ==> IsDigit(s[i]) || (i == 0 && s[i] == '-')
    ensures (s[0] == '-') <==> n < 0
  {
    if n < 0 then "-" + NatToString(-n) else NatToString(n)
  }

  predicate AllDigits(s: string) {
    forall i :: 0 <= i < |s| ==> IsDigit(s[i])
  }

  /** The value of a non-empty run of decimal digits. */
  function DigitsValue(s: string): nat
    requires |s| > 0 && AllDigits(s)
    decreases |s|
  {
    if |s| == 1 then DigitValue(s[0])
    else DigitsValue(s[..|s| - 1]) * 10 + DigitValue(s[|s| - 1])
  }

  /** Reads an optionally negative decimal integer written as Integer.toString
      writes it: no leading zero and no "-0"; None for anything else. */
  function ParseInt(s: string): (r: Option<int>)
    ensures r.Some? ==> |s| > 0
  {
    if |s| > 1 && s[0] == '-' && AllDigits(s[1..]) && s[1] != '0' then Some(-(DigitsValue(s[1..]) as int))
    else if |s| > 0 && AllDigits(s) && (|s| == 1 || s[0] != '0') then Some(DigitsValue(s))
    else None
  }

  lemma {:induction false} NatToStringRoundTrip(n: nat)
    ensures DigitsValue(NatToString(n)) == n
    decreases n
  {
    if n >= 10 {
      var s := NatToString(n);
      assert s[..|s| - 1] == NatToString(n / 10);
      NatToStringRoundTrip(n / 10);
    }
  }

  /** The rendering loses nothing: parsing gives the integer back. */
  lemma IntToStringRoundTrip(n: int)
    ensures ParseInt(IntToString(n)) == Some(n)
  {
    if n < 0 {
      var s := IntToString(n);
      assert s[1..] == NatToString(-n);
      NatToStringRoundTrip(-n);
    } else {
      NatToStringRoundTrip(n);
    }
  }

  /** A run of digits that does not start with 0 has a positive value. */
  lemma {:induction false} LeadingDigitPositive(d: string)
    requires |d| > 0 && AllDigits(d) && d[0] != '0'
    ensures DigitsValue(d) > 0
    decreases |d|
  {
    if |d| > 1 {
      LeadingDigitPositive(d[..|d| - 1]);
    }
  }

  /** The digits of a value with no leading zero are the digits NatToString writes. */
  lemma {:induction false} DigitsValueRoundTrip(d: string)
    requires |d| > 0 && AllDigits(d) && (|d| == 1 || d[0] != '0')
    ensures NatToString(DigitsValue(d)) == d
    decreases |d|
  {
    if |d| > 1 {
      var k := d[..|d| - 1];
      LeadingDigitPositive(k);
      DigitsValueRoundTrip(k);
      assert d == k + [d[|d| - 1]];
    }
  }

  /** ParseInt accepts only what IntToString writes, so a parsed value pins its string. */
  lemma ParseIntCanonical(s: string)
    ensures ParseInt(s).Some? ==> s == IntToString(ParseInt(s).value)
  {
    if |s| > 1 && s[0] == '-' && AllDigits(s[1..]) && s[1] != '0' {
      LeadingDigitPositive(s[1..]);
      DigitsValueRoundTrip(s[1..]);
      assert s == "-" + s[1..];
    } else if |s| > 0 && AllDigits(s) && (|s| == 1 || s[0] != '0') {
      DigitsValueRoundTrip(s);
    }
  }
}
