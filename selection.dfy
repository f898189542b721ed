/**
 * Order-preserving selection from a sequence: the `filter` and `find` that
 * the engine's lookups are built on, specified by the indices they select.
 */
module Selection {

  /** The positions of `s` whose element satisfies `p`, in increasing order. */
  function Indices<T>(s: seq<T>, p: T -> bool): (idx: seq<nat>)
    ensures forall k :: 0 <= k < |idx| ==> idx[k] < |s| && p(s[idx[k]])
    ensures forall k, l :: 0 <= k < l < |idx| ==> idx[k] < idx[l]
    ensures forall j :: 0 <= j < |s| && p(s[j]) ==> j in idx
    decreases |s|
  {
    if s == [] then []
    else
      var init := Indices(s[..|s| - 1], p);
      if p(s[|s| - 1]) then init + [|s| - 1] else init
  }

  /** Nothing is selected exactly when no element satisfies `p`. */
  lemma {:induction false} IndicesEmpty<T>(s: seq<T>, p: T -> bool)
    ensures |Indices(s, p)| == 0 <==> forall j :: 0 <= j < |s| ==> !p(s[j])
  {
    var idx := Indices(s, p);
    if |idx| > 0 {
      assert p(s[idx[0]]);
    }
  }

  /** A strictly increasing sequence of naturals spreads at least one per element. */
  lemma {:induction false} IncreasingSpread(idx: seq<nat>)
    requires forall k, l :: 0 <= k < l < |idx| ==> idx[k] < idx[l]
    ensures |idx| == 0 || idx[|idx| - 1] >= idx[0] + |idx| - 1
    decreases |idx|
  {
    if |idx| > 1 {
      IncreasingSpread(idx[..|idx| - 1]);
    }
  }

  /**
   * `filter`: the elements of `s` that satisfy `p`, in their order in `s`;
   * element `k` of the result is element `Indices(s, p)[k]` of `s`.
   */
  function Filter<T>(s: seq<T>, p: T -> bool): (r: seq<T>)
    ensures |r| == |Indices(s, p)|
    ensures forall k :: 0 <= k < |r| ==> r[k] == s[Indices(s, p)[k]]
    decreases |s|
  {
    if s == [] then []
    else
      var init := Filter(s[..|s| - 1], p);
      if p(s[|s| - 1]) then init + [s[|s| - 1]] else init
  }

  /** The position of the first element satisfying `p`, or `|s|` if none does. */
  function FirstIndex<T>(s: seq<T>, p: T -> bool): (i: nat)
    ensures i <= |s|
    ensures i < |s| ==> p(s[i])
    ensures forall j :: 0 <= j < i ==> !p(s[j])
    decreases |s|
  {
    if s == [] then 0
    else if p(s[0]) then 0
    else 1 + FirstIndex(s[1..], p)
  }
}
