/** `String.contains`: substring search on the context tag of a sample. */
module Text {

  /** True iff `pat` occurs in `s` at position `i`. */
  predicate OccursAt(s: string, pat: string, i: int)
  {
    0 <= i && i + |pat| <= |s| && s[i..i + |pat|] == pat
  }

  /** True iff `pat` is a substring of `s`; like Java, the empty pattern occurs in every string. */
  function Contains(s: string, pat: string): (r: bool)
    ensures |pat| == 0 ==> r
    ensures r ==> |pat| <= |s|
    ensures s == pat ==> r
    decreases |s|
  {
    if |pat| > |s| then false
    else if s[..|pat|] == pat then true
    else Contains(s[1..], pat)
  }

  /** The scanning definition agrees with the positional one. */
  lemma {:induction false} ContainsIffOccurs(s: string, pat: string)
    ensures Contains(s, pat) <==> exists i :: OccursAt(s, pat, i)
    decreases |s|
  {
    if |pat| > |s| {
      assert forall i :: !OccursAt(s, pat, i);
    } else if s[..|pat|] == pat {
      assert OccursAt(s, pat, 0);
    } else {
      ContainsIffOccurs(s[1..], pat);
      if Contains(s[1..], pat) {
        var i :| OccursAt(s[1..], pat, i);
        assert s[i + 1..i + 1 + |pat|] == s[1..][i..i + |pat|];
        assert OccursAt(s, pat, i + 1);
      } else {
        forall i | OccursAt(s, pat, i)
          ensures false
        {
          assert i != 0;
          assert s[1..][i - 1..i - 1 + |pat|] == s[i..i + |pat|];
          assert OccursAt(s[1..], pat, i - 1);
        }
      }
    }
  }

  /** A tag occurs in any string that starts with it. */
  lemma {:induction false} ContainsPrefix(pat: string, rest: string)
    ensures Contains(pat + rest, pat)
  {
    assert (pat + rest)[..|pat|] == pat;
  }
}
