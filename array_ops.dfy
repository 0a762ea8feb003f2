/**
 * The two array operations the resolvers are built from:
 * `s.find(x => x._id === id)` and `s.filter(x => x !== null)`.
 */
module ArrayOps {
  import opened Wrappers

  /**
   * `x._id === id`, where `id == None` stands for `undefined`, which is
   * strictly equal to no string id.
   */
  predicate Matches<T>(key: T -> string, id: Option<string>, x: T) {
    id == Some(key(x))
  }

  /** Some element matches `id`. */
  ghost predicate Contains<T>(s: seq<T>, key: T -> string, id: Option<string>) {
    exists i :: 0 <= i < |s| && Matches(key, id, s[i])
  }

  /**
   * `r` is what `find` must return: `None` when no element matches, and
   * otherwise the element at the first matching position.
   */
  ghost predicate IsFirstMatch<T>(s: seq<T>, key: T -> string, id: Option<string>, r: Option<T>) {
    match r
    case None => forall i :: 0 <= i < |s| ==> !Matches(key, id, s[i])
    case Some(x) =>
      exists k :: 0 <= k < |s| && s[k] == x && Matches(key, id, s[k]) &&
        forall j :: 0 <= j < k ==> !Matches(key, id, s[j])
  }

  /** `s.find(x => x._id === id)`: a left-to-right scan that stops at the first match. */
  function FindById<T>(s: seq<T>, key: T -> string, id: Option<string>): (r: Option<T>)
    ensures IsFirstMatch(s, key, id, r)
    ensures r.Some? <==> Contains(s, key, id)
  {
    if s == [] then None
    else if Matches(key, id, s[0]) then
      Some(s[0])
    else
      var r := FindById(s[1..], key, id);
      FirstMatchPastMiss(s, key, id, r);
      r
  }

  /** A first match in the tail is a first match of the whole when the head does not match. */
  lemma FirstMatchPastMiss<T>(s: seq<T>, key: T -> string, id: Option<string>, r: Option<T>)
    requires s != [] && !Matches(key, id, s[0])
    requires IsFirstMatch(s[1..], key, id, r)
    ensures IsFirstMatch(s, key, id, r)
  {
  }

  /** At most one result satisfies the first-match description, so it is a complete specification. */
  lemma FirstMatchIsUnique<T>(s: seq<T>, key: T -> string, id: Option<string>, r1: Option<T>, r2: Option<T>)
    requires IsFirstMatch(s, key, id, r1) && IsFirstMatch(s, key, id, r2)
    ensures r1 == r2
  {
  }

  /** Ids are unique within the collection. */
  ghost predicate UniqueKeys<T>(s: seq<T>, key: T -> string) {
    forall i, j :: 0 <= i < |s| && 0 <= j < |s| && key(s[i]) == key(s[j]) ==> i == j
  }

  /** With unique ids, `find` returns the one record carrying the id. */
  lemma FindByUniqueId<T>(s: seq<T>, key: T -> string, i: nat)
    requires UniqueKeys(s, key)
    requires i < |s|
    ensures FindById(s, key, Some(key(s[i]))) == Some(s[i])
  {
  }

  /** `s.filter(x => x !== null)`: the present values, in their original order. */
  function Compact<T>(s: seq<Option<T>>): (r: seq<T>)
    ensures |r| <= |s|
    ensures forall x :: x in r ==> Some(x) in s
  {
    if s == [] then []
    else Compact(s[..|s| - 1]) + (if s[|s| - 1].Some? then [s[|s| - 1].value] else [])
  }

  /** The positions of `s` that hold a value, in increasing order. */
  function PresentPositions<T>(s: seq<Option<T>>): seq<nat> {
    if s == [] then []
    else PresentPositions(s[..|s| - 1]) + (if s[|s| - 1].Some? then [|s| - 1] else [])
  }

  /**
   * `Compact(s)` is the subsequence of `s` at the present positions: the
   * k-th kept value sits at the k-th present position, positions keep their
   * order, and every position holding a value is kept and no other.
   */
  lemma {:induction false} CompactKeepsPresentInOrder<T>(s: seq<Option<T>>)
    ensures |PresentPositions(s)| == |Compact(s)| <= |s|
    ensures forall k :: 0 <= k < |PresentPositions(s)| ==>
      PresentPositions(s)[k] < |s| && s[PresentPositions(s)[k]] == Some(Compact(s)[k])
    ensures forall k, l :: 0 <= k < l < |PresentPositions(s)| ==>
      PresentPositions(s)[k] < PresentPositions(s)[l]
    ensures forall j :: 0 <= j < |s| ==> (s[j].Some? <==> j in PresentPositions(s))
  {
    if s != [] {
      var n := |s| - 1;
      var init := s[..n];
      CompactKeepsPresentInOrder(init);
      var p, c := PresentPositions(init), Compact(init);
      assert forall j :: 0 <= j < n ==> s[j] == init[j];
      forall j | 0 <= j < |p| ensures p[j] < n { }
      if s[n].Some? {
        assert PresentPositions(s) == p + [n];
        assert Compact(s) == c + [s[n].value];
      } else {
        assert PresentPositions(s) == p;
        assert Compact(s) == c;
      }
    }
  }
}
