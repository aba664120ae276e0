/** numpy boolean-mask indexing (`a[mask]`): the entries whose mask flag is
    set, in their original order. Used by the dead-time filter, the older
    light curve's detection mask and the channel selection of the storage. */
module Selection {
  import opened Sorting

  /** The positions of the set flags, in increasing order. */
  function SelectedIndices(mask: seq<bool>): (r: seq<nat>)
    ensures InRange(r, |mask|) && |r| <= |mask|
    ensures forall a, b :: 0 <= a < b < |r| ==> r[a] < r[b]
    ensures forall k :: 0 <= k < |r| ==> mask[r[k]]
    ensures forall i :: 0 <= i < |mask| && mask[i] ==> i in r
  {
    if mask == [] then []
    else
      var rest := SelectedIndices(mask[..|mask| - 1]);
      if mask[|mask| - 1] then rest + [|mask| - 1] else rest
  }

  /** `s[mask]`. */
  function Select<T>(s: seq<T>, mask: seq<bool>): (r: seq<T>)
    requires |s| == |mask|
    ensures |r| <= |s|
  {
    Apply(s, SelectedIndices(mask))
  }

  /** Pairs up two arrays of the same length. */
  function Zip<A, B>(a: seq<A>, b: seq<B>): (r: seq<(A, B)>)
    requires |a| == |b|
    ensures |r| == |a| && forall k :: 0 <= k < |a| ==> r[k] == (a[k], b[k])
  {
    seq(|a|, k requires 0 <= k < |a| => (a[k], b[k]))
  }

  /** Two arrays filtered with the same mask stay paired: filtering the
      pairs gives the pairs of the filtered arrays. */
  lemma SelectKeepsPairs<A, B>(a: seq<A>, b: seq<B>, mask: seq<bool>)
    requires |a| == |mask| && |b| == |mask|
    ensures |Select(a, mask)| == |Select(b, mask)|
    ensures Select(Zip(a, b), mask) == Zip(Select(a, mask), Select(b, mask))
  {
  }

  /** Filtering keeps the original order, so a time-ordered stream stays
      time-ordered. */
  lemma SelectKeepsOrder(s: seq<real>, mask: seq<bool>)
    requires |s| == |mask| && NonDecreasing(s)
    ensures NonDecreasing(Select(s, mask))
  {
  }

  /** Filtering only looks at the flagged entries: two arrays that agree
      wherever the mask is set filter to the same array. */
  lemma SelectAgrees<T>(a: seq<T>, b: seq<T>, mask: seq<bool>)
    requires |a| == |mask| && |b| == |mask|
    requires forall i :: 0 <= i < |mask| && mask[i] ==> a[i] == b[i]
    ensures Select(a, mask) == Select(b, mask)
  {
    var idx := SelectedIndices(mask);
    assert forall k :: 0 <= k < |idx| ==> Select(a, mask)[k] == a[idx[k]] == b[idx[k]] == Select(b, mask)[k];
  }

  /** An all-true mask selects everything. */
  lemma {:induction false} SelectAll<T>(s: seq<T>, mask: seq<bool>)
    requires |s| == |mask| && forall i :: 0 <= i < |mask| ==> mask[i]
    ensures Select(s, mask) == s
  {
    AllTrueIndices(mask);
  }

  lemma {:induction false} AllTrueIndices(mask: seq<bool>)
    requires forall i :: 0 <= i < |mask| ==> mask[i]
    ensures SelectedIndices(mask) == Identity(|mask|)
  {
    if mask != [] {
      AllTrueIndices(mask[..|mask| - 1]);
    }
  }

  /** Element-wise AND of two masks (`np.logical_and`). */
  function And(a: seq<bool>, b: seq<bool>): (r: seq<bool>)
    requires |a| == |b|
    ensures |r| == |a|
    ensures forall i :: 0 <= i < |a| ==> (r[i] <==> a[i] && b[i])
  {
    seq(|a|, i requires 0 <= i < |a| => a[i] && b[i])
  }
}
