/**
  `std::to_string` on an `int`: an optional '-' followed by the decimal
  digits of the magnitude, most significant first, with no leading zeros.
  `logError` uses it to put the failing `VkResult` and the call site's line
  into the exception text; `ParseInt` is its inverse.
*/
module Decimal {

  predicate IsDigit(c: char)
  {
    '0' <= c <= '9'
  }

  predicate AllDigits(s: string)
  {
    forall i :: 0 <= i < |s| ==> IsDigit(s[i])
  }

  /** The form `std::to_string` produces for a non-negative value:
      non-empty, digits only, and no leading zero unless the value is 0. */
  predicate IsCanonicalNat(s: string)
  {
    |s| >= 1 && AllDigits(s) && (s[0] == '0' ==> |s| == 1)
  }

  function DigitChar(d: nat): (c: char)
    requires d < 10
    ensures IsDigit(c)
  {
    ('0' as int + d) as char
  }

  function DigitValue(c: char): (d: nat)
    requires IsDigit(c)
    ensures d < 10
  {
    c as int - '0' as int
  }

  function NatToString(n: nat): (s: string)
    ensures IsCanonicalNat(s)
    ensures s[0] == '0' <==> n == 0
    decreases n
  {
    if n < 10 then [DigitChar(n)]
    else NatToString(n / 10) + [DigitChar(n % 10)]
  }

  function IntToString(n: int): (s: string)
    ensures |s| >= 1
    ensures s[0] == '-' <==> n < 0
    ensures n < 0 ==> IsCanonicalNat(s[1..])
    ensures n >= 0 ==> IsCanonicalNat(s)
  {
    if n < 0 then "-" + NatToString(-n) else NatToString(n)
  }

  /** Reads the digits most significant first. */
  function ParseNat(s: string): nat
    requires AllDigits(s)
  {
    if |s| == 0 then 0
    else ParseNat(s[..|s| - 1]) * 10 + DigitValue(s[|s| - 1])
  }

  predicate IsIntString(s: string)
  {
    IsCanonicalNat(s) || (|s| >= 2 && s[0] == '-' && IsCanonicalNat(s[1..]) && s[1] != '0')
  }

  function ParseInt(s: string): int
    requires IsIntString(s)
  {
    if s[0] == '-' then -(ParseNat(s[1..]) as int) else ParseNat(s)
  }

  lemma {:induction false} ParseNatToString(n: nat)
    ensures ParseNat(NatToString(n)) == n
    decreases n
  {
    var s := NatToString(n);
    if n >= 10 {
      var p := NatToString(n / 10);
      assert s == p + [DigitChar(n % 10)];
      assert s[..|s| - 1] == p;
      ParseNatToString(n / 10);
    }
  }

  /** A digit string without a leading zero denotes a positive number. */
  lemma {:induction false} ParseNatPositive(s: string)
    requires |s| >= 1 && AllDigits(s) && s[0] != '0'
    ensures ParseNat(s) >= 1
    decreases |s|
  {
    if |s| > 1 {
      ParseNatPositive(s[..|s| - 1]);
    }
  }

  lemma {:induction false} NatToStringParse(s: string)
    requires IsCanonicalNat(s)
    ensures NatToString(ParseNat(s)) == s
    decreases |s|
  {
    if |s| > 1 {
      var p := s[..|s| - 1];
      var d := DigitValue(s[|s| - 1]);
      assert s[0] != '0';
      assert p[0] == s[0];
      ParseNatPositive(p);
      NatToStringParse(p);
      var n := ParseNat(s);
      assert n == ParseNat(p) * 10 + d;
      assert n / 10 == ParseNat(p) && n % 10 == d;
      assert DigitChar(d) == s[|s| - 1];
      assert s == p + [s[|s| - 1]];
    }
  }

  /** Decimal rendering is injective and `ParseInt` recovers the value. */
  lemma IntToStringRoundTrip(n: int)
    ensures IsIntString(IntToString(n))
    ensures ParseInt(IntToString(n)) == n
  {
    var s := IntToString(n);
    if n < 0 {
      assert s[1..] == NatToString(-n);
      ParseNatToString(-n);
    } else {
      ParseNatToString(n);
    }
  }

  /** Every string `ParseInt` accepts is the rendering of what it parses to,
      so the rendering is onto the canonical forms. */
  lemma ParseIntRoundTrip(s: string)
    requires IsIntString(s)
    ensures IntToString(ParseInt(s)) == s
  {
    if s[0] == '-' {
      NatToStringParse(s[1..]);
      ParseNatPositive(s[1..]);
      assert s == "-" + s[1..];
    } else {
      NatToStringParse(s);
    }
  }
}
