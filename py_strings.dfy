/** Python's `needle in haystack` test on strings, which the trigger evaluator
    uses to recognise a proximity label by a keyword it contains. */
module PyStrings {

  /** `pat` occurs in `s` starting at index `i`. */
  ghost predicate OccursAt(s: string, pat: string, i: int) {
    0 <= i && i + |pat| <= |s| && s[i..i + |pat|] == pat
  }

  /** Python's `pat in s` for two strings: a left-to-right scan that tries
      every start position. The empty pattern occurs in every string. */
  function Contains(s: string, pat: string): (r: bool)
    ensures r <==> exists i :: OccursAt(s, pat, i)
    decreases |s|
  {
    if |s| < |pat| then
      false
    else if s[..|pat|] == pat then
      assert OccursAt(s, pat, 0);
      true
    else
      var rest := Contains(s[1..], pat);
      ShiftOccurrence(s, pat);
      rest
  }

  /** An occurrence in `s` at a positive index is an occurrence in `s[1..]`
      one position earlier, and conversely. */
  lemma ShiftOccurrence(s: string, pat: string)
    requires |s| > 0
    ensures (exists i :: OccursAt(s[1..], pat, i)) <==> (exists i :: 1 <= i && OccursAt(s, pat, i))
  {
    forall i | OccursAt(s[1..], pat, i)
      ensures OccursAt(s, pat, i + 1)
    {
      assert s[i + 1..i + 1 + |pat|] == s[1..][i..i + |pat|];
    }
    forall i | 1 <= i && OccursAt(s, pat, i)
      ensures OccursAt(s[1..], pat, i - 1)
    {
      assert s[1..][i - 1..i - 1 + |pat|] == s[i..i + |pat|];
    }
  }

  /** A pattern with a character that `s` lacks does not occur in `s`. */
  lemma MissingCharacterExcludes(s: string, pat: string, j: int)
    requires 0 <= j < |pat| && pat[j] !in s
    ensures !Contains(s, pat)
  {
    forall i | 0 <= i && i + |pat| <= |s|
      ensures !OccursAt(s, pat, i)
    {
      assert s[i..i + |pat|][j] == s[i + j];
    }
  }

  /** A string contains each of its prefixes. */
  lemma PrefixContained(s: string, pat: string)
    requires |pat| <= |s| && s[..|pat|] == pat
    ensures Contains(s, pat)
  {
    assert OccursAt(s, pat, 0);
  }
}
