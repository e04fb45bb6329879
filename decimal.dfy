/**
 * How JavaScript writes an integral Number when it is concatenated to a
 * string (`'transform ' + 400`, `'translateX(' + -100 + '%)'`): an optional
 * minus sign followed by decimal digits without leading zeros. ParseInt
 * inverts IntToString (IntToStringRoundTrip, ParseIntRoundTrip).
 */
module Decimal {
  import opened Wrappers

  predicate IsDigit(c: char) {
    '0' <= c <= '9'
  }

  predicate AllDigits(s: string) {
    forall i :: 0 <= i < |s| ==> IsDigit(s[i])
  }

  /** A digit string as JavaScript prints it: at least one digit, no leading zero. */
  predicate Canonical(s: string) {
    |s| >= 1 && AllDigits(s) && (s[0] == '0' ==> |s| == 1)
  }

  /** A signed integer as JavaScript prints it; there is no "-0". */
  predicate CanonicalInt(s: string) {
    Canonical(s) || (|s| >= 2 && s[0] == '-' && Canonical(s[1..]) && s[1] != '0')
  }

  function DigitValue(c: char): (d: nat)
    requires IsDigit(c)
    ensures d < 10
  {
    c as int - '0' as int
  }

  function DigitChar(d: nat): (c: char)
    requires d < 10
    ensures IsDigit(c) && DigitValue(c) == d
  {
    ('0' as int + d) as char
  }

  /** Decimal digits of n, most significant first. */
  function NatToString(n: nat): (s: string)
    ensures Canonical(s)
    ensures s[0] == '0' <==> n == 0
  {
    if n < 10 then [DigitChar(n)] else NatToString(n / 10) + [DigitChar(n % 10)]
  }

  /** String conversion of an integral Number; -(0*100) is +0 here, printed "0" as JavaScript does for -0. */
  function IntToString(n: int): string {
    if n < 0 then "-" + NatToString(-n) else NatToString(n)
  }

  /** The value of a string of decimal digits, most significant first. */
  function DigitsValue(s: string): nat
    requires AllDigits(s)
  {
    if s == [] then 0 else DigitsValue(s[..|s| - 1]) * 10 + DigitValue(s[|s| - 1])
  }

  /** Reads back an integer in the form IntToString writes. */
  function ParseInt(s: string): Option<int> {
    if |s| >= 2 && s[0] == '-' && AllDigits(s[1..]) then Some(-(DigitsValue(s[1..]) as int))
    else if |s| >= 1 && AllDigits(s) then Some(DigitsValue(s))
    else None
  }

  lemma DigitCharOfValue(c: char)
    requires IsDigit(c)
    ensures DigitChar(DigitValue(c)) == c
  {
  }

  lemma {:induction false} ValueOfNatToString(n: nat)
    ensures DigitsValue(NatToString(n)) == n
  {
    if n < 10 {
      assert NatToString(n)[..0] == [];
    } else {
      var p := NatToString(n / 10);
      ValueOfNatToString(n / 10);
      assert NatToString(n) == p + [DigitChar(n % 10)];
      assert (p + [DigitChar(n % 10)])[..|p|] == p;
    }
  }

  lemma {:induction false} NatToStringOfValue(s: string)
    requires Canonical(s)
    ensures NatToString(DigitsValue(s)) == s
  {
    var last := s[|s| - 1];
    if |s| == 1 {
      assert s[..0] == [];
      DigitCharOfValue(last);
      assert s == [last];
    } else {
      var t := s[..|s| - 1];
      assert t[0] == s[0];
      assert Canonical(t);
      NatToStringOfValue(t);
      var v := DigitsValue(t);
      // t has no leading zero, so by NatToString's contract v is not 0
      assert v != 0;
      var d := DigitValue(last);
      assert DigitsValue(s) == v * 10 + d;
      assert (v * 10 + d) / 10 == v && (v * 10 + d) % 10 == d;
      DigitCharOfValue(last);
      assert s == t + [last];
    }
  }

  /** Printing then parsing returns the integer. */
  lemma IntToStringRoundTrip(n: int)
    ensures ParseInt(IntToString(n)) == Some(n)
    ensures CanonicalInt(IntToString(n))
  {
    var s := IntToString(n);
    if n < 0 {
      var p := NatToString(-n);
      ValueOfNatToString(-n);
      assert s == "-" + p;
      assert s[1..] == p;
      assert s[0] == '-' && |s| >= 2;
      assert p[0] != '0';
      assert ParseInt(s) == Some(-(DigitsValue(p) as int));
    } else {
      ValueOfNatToString(n);
      assert s == NatToString(n);
      assert s[0] != '-';
    }
  }

  /** Every canonical integer string is what IntToString prints for its value. */
  lemma ParseIntRoundTrip(s: string)
    requires CanonicalInt(s)
    ensures ParseInt(s).Some? && IntToString(ParseInt(s).value) == s
  {
    if Canonical(s) {
      NatToStringOfValue(s);
    } else {
      var t := s[1..];
      NatToStringOfValue(t);
      assert DigitsValue(t) != 0;
      assert s == "-" + t;
    }
  }

  /** Different integers print differently. */
  lemma IntToStringInjective(m: int, n: int)
    ensures IntToString(m) == IntToString(n) ==> m == n
  {
    IntToStringRoundTrip(m);
    IntToStringRoundTrip(n);
  }
}
