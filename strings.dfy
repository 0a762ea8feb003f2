/** `String.prototype.replace` with a string pattern and an empty replacement. */
module Strings {
  import opened Wrappers

  /** `pat` occurs in `s` starting at position `i`. */
  predicate OccursAt(s: string, pat: string, i: nat) {
    i + |pat| <= |s| && s[i..i + |pat|] == pat
  }

  /** `s.indexOf(pat)`: the first position where `pat` occurs, or none. */
  function IndexOf(s: string, pat: string): (r: Option<nat>)
    ensures r.None? <==> forall i: nat :: !OccursAt(s, pat, i)
    ensures r.Some? ==> OccursAt(s, pat, r.value) && forall j: nat :: j < r.value ==> !OccursAt(s, pat, j)
    decreases |s|
  {
    if |s| < |pat| then None
    else if s[..|pat|] == pat then
      assert OccursAt(s, pat, 0);
      Some(0)
    else
      assert !OccursAt(s, pat, 0);
      var r := IndexOf(s[1..], pat);
      OccursAtShift(s, pat);
      match r
      case None => None
      case Some(i) => Some(i + 1)
  }

  /** Occurrences in `s[1..]` are the occurrences in `s` one position later. */
  lemma OccursAtShift(s: string, pat: string)
    requires s != []
    ensures forall i: nat :: OccursAt(s[1..], pat, i) ==> OccursAt(s, pat, i + 1)
    ensures forall i: nat :: 1 <= i && OccursAt(s, pat, i) ==> OccursAt(s[1..], pat, i - 1)
  {
  }

  /**
   * `s.replace(pat, '')`: the first occurrence of `pat`, wherever it is,
   * is removed; a string without `pat` is returned unchanged.
   */
  function RemoveFirst(s: string, pat: string): (r: string)
    ensures |r| == |s| || |r| == |s| - |pat|
    ensures (forall i: nat :: !OccursAt(s, pat, i)) ==> r == s
    ensures forall i: nat :: OccursAt(s, pat, i) && (forall j: nat :: j < i ==> !OccursAt(s, pat, j)) ==>
      r == s[..i] + s[i + |pat|..]
  {
    match IndexOf(s, pat)
    case None => s
    case Some(i) => s[..i] + s[i + |pat|..]
  }

  /** Removing a pattern that opens the string leaves what follows it. */
  lemma RemoveLeadingPattern(pat: string, rest: string)
    ensures RemoveFirst(pat + rest, pat) == rest
  {
  }
}
