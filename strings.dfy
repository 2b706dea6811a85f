/** The two java.lang.String queries the core relies on, over `seq<char>`. */
module Strings {

  /** `s.endsWith(suffix)`: true when `suffix` is the tail of `s` (always for the empty suffix). */
  predicate EndsWith(s: string, suffix: string)
  {
    |suffix| <= |s| && s[|s| - |suffix|..] == suffix
  }

  /** True when `pat` occurs in `s` starting at index `i`. */
  predicate OccursAt(s: string, pat: string, i: nat)
  {
    i + |pat| <= |s| && s[i..i + |pat|] == pat
  }

  /** The highest start index `<= i` at which `pat` occurs in `s`, or -1. */
  function LastIndexAtOrBelow(s: string, pat: string, i: nat): (r: int)
    requires i + |pat| <= |s|
    ensures -1 <= r <= i
    ensures r >= 0 ==> OccursAt(s, pat, r)
    ensures forall j :: r < j <= i ==> !OccursAt(s, pat, j)
    decreases i
  {
    if OccursAt(s, pat, i) then i
    else if i == 0 then -1
    else LastIndexAtOrBelow(s, pat, i - 1)
  }

  /** `s.lastIndexOf(pat)`: the start of the last occurrence of `pat` in `s`, or -1 when there is none. */
  function LastIndexOf(s: string, pat: string): (r: int)
    ensures -1 <= r
    ensures r >= 0 ==> OccursAt(s, pat, r)
    ensures r == -1 <==> forall j: nat :: !OccursAt(s, pat, j)
    ensures forall j: nat :: r < j ==> !OccursAt(s, pat, j)
  {
    if |pat| > |s| then -1 else LastIndexAtOrBelow(s, pat, |s| - |pat|)
  }

  /** When `s` ends with `pat`, the last occurrence of `pat` is that suffix. */
  lemma LastIndexOfSuffix(s: string, pat: string)
    requires EndsWith(s, pat)
    ensures LastIndexOf(s, pat) == |s| - |pat|
  {
    assert OccursAt(s, pat, |s| - |pat|);
  }
}
