/** Character classes and the decimal rendering of integers (std::to_string). */
module Text {

  /** ASCII digit, the C-locale `isdigit`. */
  predicate IsDigit(c: char) {
    '0' <= c <= '9'
  }

  predicate AllDigits(s: string) {
    forall k :: 0 <= k < |s| ==> IsDigit(s[k])
  }

  function DigitChar(d: nat): (c: char)
    requires d < 10
    ensures IsDigit(c)
  {
    ('0' as int + d) as char
  }

  function DigitValue(c: char): (d: nat)
    requires IsDigit(c)
    ensures d < 10 && DigitChar(d) == c
  {
    c as int - '0' as int
  }

  /** Decimal digits of `n`, most significant first, without leading zeros. */
  function NatToString(n: nat): (s: string)
    ensures |s| > 0 && AllDigits(s)
    ensures |s| > 1 ==> s[0] != '0'
    decreases n
  {
    if n < 10 then [DigitChar(n)] else NatToString(n / 10) + [DigitChar(n % 10)]
  }

  /** std::to_string on an int: a minus sign, then the digits of the magnitude. */
  function IntToString(i: int): (s: string)
  {
    if i < 0 then "-" + NatToString(-i) else NatToString(i)
  }

  /** Reads a decimal digit string back; the inverse of NatToString. */
  function ParseNat(s: string): nat
    requires AllDigits(s)
  {
    if |s| == 0 then 0 else 10 * ParseNat(s[..|s| - 1]) + DigitValue(s[|s| - 1])
  }

  /** Reads back what IntToString writes. */
  function ParseInt(s: string): int
    requires |s| > 0
    requires s[0] == '-' ==> AllDigits(s[1..])
    requires s[0] != '-' ==> AllDigits(s)
  {
    if s[0] == '-' then 0 - (ParseNat(s[1..]) as int) else ParseNat(s)
  }

  lemma {:induction false} ParseNatToString(n: nat)
    ensures ParseNat(NatToString(n)) == n
    decreases n
  {
    if n >= 10 {
      var s := NatToString(n);
      assert s[..|s| - 1] == NatToString(n / 10);
      ParseNatToString(n / 10);
    }
  }

  /** The position numbers in error and token texts decode back to the integers printed. */
  lemma IntToStringRoundTrip(i: int)
    ensures var s := IntToString(i); |s| > 0 && (s[0] == '-' <==> i < 0)
    ensures var s := IntToString(i); (s[0] == '-' ==> AllDigits(s[1..])) && (s[0] != '-' ==> AllDigits(s))
    ensures ParseInt(IntToString(i)) == i
  {
    if i < 0 {
      var s := IntToString(i);
      assert s[1..] == NatToString(-i);
      ParseNatToString(-i);
    } else {
      ParseNatToString(i);
    }
  }

  /** The longest suffix of `s` made of digits. */
  function TrailingDigits(s: string): (d: string)
    ensures |d| <= |s| && d == s[|s| - |d|..] && AllDigits(d)
  {
    if |s| == 0 || !IsDigit(s[|s| - 1]) then "" else TrailingDigits(s[..|s| - 1]) + [s[|s| - 1]]
  }

  /** A digit string placed after a non-digit is recovered whole by TrailingDigits. */
  lemma {:induction false} TrailingDigitsAfter(p: string, d: string)
    requires AllDigits(d)
    requires |p| == 0 || !IsDigit(p[|p| - 1])
    ensures TrailingDigits(p + d) == d
    decreases |d|
  {
    if |d| > 0 {
      var d' := d[..|d| - 1];
      assert (p + d)[..|p + d| - 1] == p + d';
      TrailingDigitsAfter(p, d');
    } else {
      assert p + d == p;
    }
  }
}
