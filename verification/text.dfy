/** Substring search on strings, as JavaScript's `String.prototype.indexOf`
    performs it, checked against a declarative notion of containment.
    Positions count characters, where JavaScript counts UTF-16 code units;
    whether the result is -1 does not depend on the difference. */
module Text {

  /** `pat` occurs in `s` starting at index `i`. */
  predicate OccursAt(s: string, pat: string, i: int) {
    0 <= i && i + |pat| <= |s| && s[i..i + |pat|] == pat
  }

  /** `pat` is a substring of `s`: the reference definition the search is
      judged against. */
  ghost predicate Contains(s: string, pat: string) {
    exists i :: OccursAt(s, pat, i)
  }

  /** The first occurrence of `pat` in `s` at or after `from`, or -1 when
      there is none. */
  function IndexFrom(s: string, pat: string, from: nat): (r: int)
    ensures r == -1 || (from <= r && OccursAt(s, pat, r))
    ensures r == -1 ==> forall j :: from <= j ==> !OccursAt(s, pat, j)
    ensures r != -1 ==> forall j :: from <= j < r ==> !OccursAt(s, pat, j)
    decreases |s| - from
  {
    if |s| < from + |pat| then -1
    else if s[from..from + |pat|] == pat then from
    else IndexFrom(s, pat, from + 1)
  }

  /** `s.indexOf(pat)`: the index of the first occurrence of `pat` in `s`,
      or -1 exactly when `pat` is not a substring of `s`. */
  function IndexOf(s: string, pat: string): (r: int)
    ensures r == -1 <==> !Contains(s, pat)
    ensures r != -1 ==> OccursAt(s, pat, r) && forall j :: 0 <= j < r ==> !OccursAt(s, pat, j)
  {
    IndexFrom(s, pat, 0)
  }

  /** Whatever surrounds it, `pat` is a substring of `pre + pat + post`. */
  lemma ContainsInfix(pre: string, pat: string, post: string)
    ensures Contains(pre + pat + post, pat)
  {
    var s := pre + pat + post;
    assert s[|pre|..|pre| + |pat|] == pat;
    assert OccursAt(s, pat, |pre|);
  }
}
