/** The two string operations of the Vertex handler: `endsWith` and
    `replace(pattern, "")`, which removes the first occurrence of a pattern. */
module JsStrings {
  import opened Wrappers

  /** `pat` occurs in `s` starting at index `i`. */
  predicate OccursAt(s: string, pat: string, i: nat) {
    i + |pat| <= |s| && s[i..i + |pat|] == pat
  }

  /** `s.endsWith(suffix)`. */
  predicate EndsWith(s: string, suffix: string) {
    |suffix| <= |s| && s[|s| - |suffix|..] == suffix
  }

  /** The first index at or after `from` where `pat` occurs in `s`. */
  function IndexOfFrom(s: string, pat: string, from: nat): (r: Option<nat>)
    ensures r.Some? ==>
      from <= r.value && OccursAt(s, pat, r.value)
      && forall j: nat :: from <= j < r.value ==> !OccursAt(s, pat, j)
    ensures r.None? ==> forall j: nat :: from <= j ==> !OccursAt(s, pat, j)
    decreases |s| - from
  {
    if from + |pat| > |s| then None
    else if OccursAt(s, pat, from) then Some(from)
    else IndexOfFrom(s, pat, from + 1)
  }

  /** `s.indexOf(pat)`, with `None` for -1. */
  function IndexOf(s: string, pat: string): Option<nat> {
    IndexOfFrom(s, pat, 0)
  }

  /** `s.replace(pat, "")`: the first occurrence of `pat` is cut out. */
  function RemoveFirst(s: string, pat: string): (r: string)
    ensures IndexOf(s, pat).None? ==> r == s
    ensures IndexOf(s, pat).Some? ==>
      var i := IndexOf(s, pat).value;
      |r| == |s| - |pat| && r == s[..i] + s[i + |pat|..]
  {
    match IndexOf(s, pat)
    case None => s
    case Some(i) => s[..i] + s[i + |pat|..]
  }

  /** When the first character of `pat` occurs nowhere else in it, and `base`
      does not contain `pat`, then `pat` occurs in `base + pat` exactly once, at
      the end, and removing its first occurrence gives `base` back. */
  lemma {:induction false} RemoveFirstOfSoleSuffix(base: string, pat: string)
    requires |pat| > 0 && forall i :: 0 < i < |pat| ==> pat[i] != pat[0]
    requires IndexOf(base, pat).None?
    ensures EndsWith(base + pat, pat)
    ensures IndexOf(base + pat, pat) == Some(|base|)
    ensures RemoveFirst(base + pat, pat) == base
  {
    var s := base + pat;
    assert s[|s| - |pat|..] == pat;
    assert OccursAt(s, pat, |base|) by { assert s[|base|..|base| + |pat|] == pat; }
    forall j: nat | j < |base|
      ensures !OccursAt(s, pat, j)
    {
      if j + |pat| <= |base| {
        assert s[j..j + |pat|] == base[j..j + |pat|];
        assert !OccursAt(base, pat, j);
      } else if j + |pat| <= |s| {
        var d := |base| - j;
        assert 0 < d < |pat|;
        assert s[j..j + |pat|][d] == s[|base|] == pat[0];
        assert pat[d] != pat[0];
      }
    }
    var r := IndexOf(s, pat);
    assert r.Some? && r.value == |base|;
    assert s[..|base|] == base;
    assert s[|base| + |pat|..] == [];
  }
}
