/** Python's substring test `pat in s`, case-sensitive and without any
    parsing, with its proof against the declarative definition. */
module Strings {

  /** `pat` sits in `s` starting at index `i`. */
  predicate MatchesAt(s: string, pat: string, i: int) {
    0 <= i && i + |pat| <= |s| && s[i..i + |pat|] == pat
  }

  /** `pat` occurs in `s` at some position. */
  ghost predicate Occurs(s: string, pat: string) {
    exists i :: MatchesAt(s, pat, i)
  }

  /** Executable substring search: try position 0, then search the tail. */
  function Contains(s: string, pat: string): bool
    decreases |s|
  {
    if |s| < |pat| then false
    else if s[..|pat|] == pat then true
    else Contains(s[1..], pat)
  }

  /** When there is no match at position 0, the occurrences in `s` are those
      in its tail, shifted by one. */
  lemma OccursTail(s: string, pat: string)
    requires |s| >= 1
    requires !MatchesAt(s, pat, 0)
    ensures Occurs(s, pat) <==> Occurs(s[1..], pat)
  {
    if Occurs(s[1..], pat) {
      var i :| MatchesAt(s[1..], pat, i);
      assert s[i + 1..i + 1 + |pat|] == s[1..][i..i + |pat|];
      assert MatchesAt(s, pat, i + 1);
    }
    if Occurs(s, pat) {
      var i :| MatchesAt(s, pat, i);
      assert i != 0;
      assert s[1..][i - 1..i - 1 + |pat|] == s[i..i + |pat|];
      assert MatchesAt(s[1..], pat, i - 1);
    }
  }

  /** The search finds a match exactly when the pattern occurs. */
  lemma {:induction false} ContainsIffOccurs(s: string, pat: string)
    ensures Contains(s, pat) <==> Occurs(s, pat)
    decreases |s|
  {
    if |s| < |pat| {
    } else if s[..|pat|] == pat {
      assert MatchesAt(s, pat, 0);
    } else {
      assert !MatchesAt(s, pat, 0);
      ContainsIffOccurs(s[1..], pat);
      OccursTail(s, pat);
    }
  }

  /** A pattern occurs in any string built around it. */
  lemma OccursInside(before: string, pat: string, after: string)
    ensures Occurs(before + pat + after, pat)
  {
    var s := before + pat + after;
    assert s[|before|..|before| + |pat|] == pat;
    assert MatchesAt(s, pat, |before|);
  }
}
