/**
 * The case-count badge shown on each country marker: the count's numeral,
 * shortened to "<thousands>k+" when the count is above one thousand
 * (`casesString` in the page's `pointToLayer` callback).
 */
module CaseBadge {
  import opened Wrappers
  import opened Decimal

  /** Counts strictly above this are shortened. */
  const THRESHOLD := 1000

  /** What is appended to a shortened count. */
  const SUFFIX := "k+"

  /**
   * JavaScript's `s.slice(0, -3)`: the end index -3 counts from the end and is
   * clamped at 0, so a string of three characters or fewer becomes empty.
   */
  function DropLastThree(s: string): (r: string)
    ensures |r| == if |s| >= 3 then |s| - 3 else 0
    ensures r <= s
  {
    s[..if |s| >= 3 then |s| - 3 else 0]
  }

  /** The badge text for a count of cases. */
  function CasesString(cases: int): string {
    var s := IntToString(cases);
    if cases > THRESHOLD then DropLastThree(s) + SUFFIX else s
  }

  /** What a reader of the badge learns about the count. */
  datatype Reading = Thousands(thousands: nat) | Exact(count: int) | Unreadable

  /** Reads a badge back: "<digits>k+" is a number of thousands, a plain numeral is exact. */
  function ReadBadge(b: string): Reading {
    if |b| >= 2 && b[|b| - 2..] == SUFFIX && AllDigits(b[..|b| - 2]) then
      Thousands(DigitsValue(b[..|b| - 2]))
    else
      match ParseInt(b)
      case Some(n) => Exact(n)
      case None => Unreadable
  }

  /**
   * Above the threshold the badge is the numeral with exactly its last three
   * characters removed, followed by "k+"; the kept prefix is the non-empty
   * numeral of cases / 1000, so the badge is one character shorter than the
   * numeral.
   */
  lemma AboveThreshold(cases: int)
    requires cases > THRESHOLD
    ensures var s := IntToString(cases);
      && |s| >= 4
      && CasesString(cases) == s[..|s| - 3] + "k+"
      && s[..|s| - 3] == IntToString(cases / 1000)
      && |IntToString(cases / 1000)| >= 1
      && |CasesString(cases)| == |s| - 1
  {
    DropThreeDigits(cases);
  }

  /** At or below the threshold the badge is exactly the numeral, with no "k+" suffix. */
  lemma AtMostThreshold(cases: int)
    requires cases <= THRESHOLD
    ensures CasesString(cases) == IntToString(cases)
    ensures var b := CasesString(cases); !(|b| >= 2 && b[|b| - 2..] == SUFFIX)
  {
  }

  /**
   * The badge loses exactly the last three digits of a large count: reading it
   * back gives the number of whole thousands above the threshold and the exact
   * count otherwise.
   */
  lemma BadgeRoundTrip(cases: int)
    ensures ReadBadge(CasesString(cases)) ==
      if cases > THRESHOLD then Thousands(cases / 1000) else Exact(cases)
  {
    var b := CasesString(cases);
    if cases > THRESHOLD {
      AboveThreshold(cases);
      var p := IntToString(cases / 1000);
      assert b == p + SUFFIX;
      assert b[..|b| - 2] == p && b[|b| - 2..] == SUFFIX;
      assert p == NatToString(cases / 1000);
      NatToStringRoundTrip(cases / 1000);
    } else {
      AtMostThreshold(cases);
      IntToStringRoundTrip(cases);
    }
  }
}
