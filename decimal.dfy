/**
 * Decimal numerals of integers, as a JavaScript template literal `${n}`
 * writes an integer-valued number: an optional minus sign followed by the
 * digits, most significant first, with no leading zero.  `DigitsValue` and
 * `ParseInt` read a numeral back and are the inverses of the printers.
 */
module Decimal {
  import opened Wrappers

  predicate IsDigit(c: char) {
    '0' <= c <= '9'
  }

  predicate AllDigits(s: string) {
    forall i :: 0 <= i < |s| ==> IsDigit(s[i])
  }

  /** A numeral for a non-negative integer: some digits and no leading zero. */
  predicate IsCanonical(s: string) {
    |s| >= 1 && AllDigits(s) && (s[0] == '0' ==> |s| == 1)
  }

  function CharValue(c: char): (d: nat)
    requires IsDigit(c)
    ensures d < 10
  {
    c as int - '0' as int
  }

  function DigitChar(d: nat): (c: char)
    requires d < 10
    ensures IsDigit(c) && CharValue(c) == d
  {
    (d + '0' as int) as char
  }

  /** The numeral of a non-negative integer. */
  function NatToString(n: nat): (s: string)
    ensures IsCanonical(s)
    ensures s[0] == '0' <==> n == 0
    decreases n
  {
    if n < 10 then [DigitChar(n)] else NatToString(n / 10) + [DigitChar(n % 10)]
  }

  /** The numeral of any integer: a minus sign before the numeral of its magnitude. */
  function IntToString(n: int): (s: string)
    ensures |s| >= 1 && IsDigit(s[|s| - 1])
  {
    if n < 0 then "-" + NatToString(-n) else NatToString(n)
  }

  /** The value of a string of digits, most significant first. */
  function DigitsValue(s: string): nat
    requires AllDigits(s)
  {
    if s == [] then 0 else DigitsValue(s[..|s| - 1]) * 10 + CharValue(s[|s| - 1])
  }

  /** Reads an integer numeral with an optional leading minus sign. */
  function ParseInt(s: string): Option<int> {
    if |s| >= 2 && s[0] == '-' && AllDigits(s[1..]) then Some(-(DigitsValue(s[1..]) as int))
    else if |s| >= 1 && AllDigits(s) then Some(DigitsValue(s))
    else None
  }

  /** Reading the numeral of n gives back n. */
  lemma {:induction false} NatToStringRoundTrip(n: nat)
    ensures DigitsValue(NatToString(n)) == n
    decreases n
  {
    var s := NatToString(n);
    if n < 10 {
      assert s[..0] == [];
    } else {
      assert s[..|s| - 1] == NatToString(n / 10);
      NatToStringRoundTrip(n / 10);
    }
  }

  /** A string of digits that does not start with zero has a positive value. */
  lemma {:induction false} LeadingDigitPositive(s: string)
    requires |s| >= 1 && AllDigits(s) && s[0] != '0'
    ensures DigitsValue(s) >= 1
    decreases |s|
  {
    var p := s[..|s| - 1];
    if |s| == 1 {
      assert p == [];
    } else {
      assert p[0] == s[0];
      LeadingDigitPositive(p);
    }
  }

  /** Every canonical numeral is the numeral of its own value: printing is onto. */
  lemma {:induction false} CanonicalRoundTrip(s: string)
    requires IsCanonical(s)
    ensures NatToString(DigitsValue(s)) == s
    decreases |s|
  {
    var last := s[|s| - 1];
    assert DigitChar(CharValue(last)) == last;
    var p := s[..|s| - 1];
    if |s| == 1 {
      assert p == [];
      assert s == [last];
    } else {
      assert p[0] == s[0];
      assert IsCanonical(p);
      LeadingDigitPositive(p);
      CanonicalRoundTrip(p);
      var v := DigitsValue(s);
      assert v == DigitsValue(p) * 10 + CharValue(last);
      assert v / 10 == DigitsValue(p) && v % 10 == CharValue(last);
      assert s == p + [last];
    }
  }

  /** Reading the numeral of any integer gives back that integer. */
  lemma IntToStringRoundTrip(n: int)
    ensures ParseInt(IntToString(n)) == Some(n)
  {
    var s := IntToString(n);
    if n < 0 {
      assert s[1..] == NatToString(-n);
      NatToStringRoundTrip(-n);
    } else {
      assert !IsDigit('-');
      NatToStringRoundTrip(n);
    }
  }

  /**
   * Removing the last three characters of the numeral of n >= 1000 leaves the
   * numeral of n / 1000 (integer division), which is never empty.
   */
  lemma DropThreeDigits(n: nat)
    requires n >= 1000
    ensures |NatToString(n)| >= 4
    ensures NatToString(n)[..|NatToString(n)| - 3] == NatToString(n / 1000)
  {
    var q, r := n / 1000, n % 1000;
    assert n / 10 / 10 / 10 == q by {
      assert n == 1000 * q + r && 0 <= r < 1000;
    }
    var s1 := NatToString(n / 10);
    var s2 := NatToString(n / 10 / 10);
    var s3 := NatToString(q);
    assert NatToString(n) == s1 + [DigitChar(n % 10)];
    assert s1 == s2 + [DigitChar(n / 10 % 10)];
    assert s2 == s3 + [DigitChar(n / 10 / 10 % 10)];
    assert NatToString(n) == s3 + [DigitChar(n / 10 / 10 % 10), DigitChar(n / 10 % 10), DigitChar(n % 10)];
  }
}
