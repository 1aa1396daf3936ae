/** The two JavaScript string operations the bearer-token guard relies on:
    `String.prototype.indexOf` and `String.prototype.replace` with a string
    pattern, which replaces the FIRST occurrence only. */
module JsString {
  import opened Common

  /** `pat` occurs in `s` starting at index `i`. */
  predicate OccursAt(s: string, pat: string, i: nat) {
    i + |pat| <= |s| && s[i..i + |pat|] == pat
  }

  /** The first index at or after `from` where `pat` occurs. */
  function IndexFrom(s: string, pat: string, from: nat): (r: Option<nat>)
    ensures r.Some? ==> from <= r.value && OccursAt(s, pat, r.value)
    ensures r.Some? ==> forall j: nat :: from <= j < r.value ==> !OccursAt(s, pat, j)
    ensures r.None? ==> forall j: nat :: from <= j ==> !OccursAt(s, pat, j)
    decreases |s| - from
  {
    if from + |pat| > |s| then None
    else if s[from..from + |pat|] == pat then Some(from)
    else IndexFrom(s, pat, from + 1)
  }

  /** `s.indexOf(pat)`, with `None` for JavaScript's `-1`. */
  function IndexOf(s: string, pat: string): (r: Option<nat>)
    ensures r.Some? ==> OccursAt(s, pat, r.value)
    ensures r.Some? ==> forall j: nat :: j < r.value ==> !OccursAt(s, pat, j)
    ensures r.None? <==> forall j: nat :: !OccursAt(s, pat, j)
  {
    IndexFrom(s, pat, 0)
  }

  /** `s.replace(pat, rep)` for a string `pat`: only the first occurrence is replaced. */
  function ReplaceFirst(s: string, pat: string, rep: string): (r: string)
    ensures IndexOf(s, pat).None? ==> r == s
    ensures IndexOf(s, pat).Some? ==>
      var i := IndexOf(s, pat).value;
      |r| == |s| - |pat| + |rep| &&
      r[..i] == s[..i] && r[i..i + |rep|] == rep && r[i + |rep|..] == s[i + |pat|..]
  {
    match IndexOf(s, pat)
    case None => s
    case Some(i) => s[..i] + rep + s[i + |pat|..]
  }

  /** A string that starts with the pattern loses exactly that prefix,
      whatever the rest contains. */
  lemma ReplaceFirstAtStart(pat: string, t: string, rep: string)
    ensures ReplaceFirst(pat + t, pat, rep) == rep + t
  {
    assert (pat + t)[0..|pat|] == pat;
    assert OccursAt(pat + t, pat, 0);
    assert IndexOf(pat + t, pat) == Some(0);
    assert (pat + t)[|pat|..] == t;
  }

  /** A pattern containing a character that the string lacks never occurs in it. */
  lemma NeverOccursWithout(s: string, pat: string, c: char)
    requires c in pat && c !in s
    ensures forall j: nat :: !OccursAt(s, pat, j)
  {
    var k :| 0 <= k < |pat| && pat[k] == c;
    forall j: nat
      ensures !OccursAt(s, pat, j)
    {
      if j + |pat| <= |s| {
        assert s[j..j + |pat|][k] == s[j + k];
        assert s[j + k] in s;
      }
    }
  }

  /** Such a string is left unchanged by `replace`. */
  lemma ReplaceFirstWithout(s: string, pat: string, rep: string, c: char)
    requires c in pat && c !in s
    ensures ReplaceFirst(s, pat, rep) == s
  {
    NeverOccursWithout(s, pat, c);
  }
}
