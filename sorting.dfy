/** Index sorting by a real-valued key, the `argsort` the code relies on in
    three places: `TimeIntervalSet.argsort` (Python's stable `sorted`), the
    time ordering in `LightCurve._combine` and the angle ordering of the GBM
    trigger (both numpy's default, unstable `argsort`). The definition here is
    a stable insertion sort; callers that model numpy only rely on its result
    being a sorting permutation, not on its tie order. */
module Sorting {

  /** Every entry of `idx` is an index below `n`. */
  predicate InRange(idx: seq<nat>, n: nat) {
    forall k :: 0 <= k < |idx| ==> idx[k] < n
  }

  /** No index appears twice. */
  predicate Distinct(idx: seq<nat>) {
    forall a, b :: 0 <= a < b < |idx| ==> idx[a] != idx[b]
  }

  /** `idx` lists each of 0 .. n-1 exactly once. */
  predicate IsPermutation(idx: seq<nat>, n: nat) {
    |idx| == n && InRange(idx, n) && Distinct(idx)
  }

  /** Reading `keys` along `idx` gives a non-decreasing sequence. */
  predicate SortedBy(keys: seq<real>, idx: seq<nat>)
    requires InRange(idx, |keys|)
  {
    forall a, b :: 0 <= a < b < |idx| ==> keys[idx[a]] <= keys[idx[b]]
  }

  /** Equal keys keep their original relative order. */
  predicate Stable(keys: seq<real>, idx: seq<nat>)
    requires InRange(idx, |keys|)
  {
    forall a, b :: 0 <= a < b < |idx| && keys[idx[a]] == keys[idx[b]] ==> idx[a] < idx[b]
  }

  /** A key sequence already in non-decreasing order. */
  predicate NonDecreasing(keys: seq<real>) {
    forall a, b :: 0 <= a < b < |keys| ==> keys[a] <= keys[b]
  }

  /** 0, 1, ..., n-1. */
  function Identity(n: nat): (r: seq<nat>)
    ensures |r| == n && forall k :: 0 <= k < n ==> r[k] == k
  {
    if n == 0 then [] else Identity(n - 1) + [n - 1]
  }

  /** The elements of `s` in the order `idx` gives (numpy's `s[idx]`). */
  function Apply<T>(s: seq<T>, idx: seq<nat>): (r: seq<T>)
    requires InRange(idx, |s|)
    ensures |r| == |idx| && forall k :: 0 <= k < |idx| ==> r[k] == s[idx[k]]
  {
    seq(|idx|, k requires 0 <= k < |idx| => s[idx[k]])
  }

  /** Where index `i` goes in the sorted list `l`: after every entry whose key
      is at most `keys[i]`. */
  function InsertPos(keys: seq<real>, l: seq<nat>, i: nat): (p: nat)
    requires InRange(l, |keys|) && i < |keys|
    ensures p <= |l|
  {
    if l == [] || keys[i] < keys[l[0]] then 0 else 1 + InsertPos(keys, l[1..], i)
  }

  function Insert(keys: seq<real>, l: seq<nat>, i: nat): seq<nat>
    requires InRange(l, |keys|) && i < |keys|
  {
    var p := InsertPos(keys, l, i);
    l[..p] + [i] + l[p..]
  }

  /** The stable argsort of the first `n` keys. */
  function ArgsortPrefix(keys: seq<real>, n: nat): (r: seq<nat>)
    requires n <= |keys|
    ensures InRange(r, n) && |r| == n
    decreases n
  {
    if n == 0 then []
    else
      var l := ArgsortPrefix(keys, n - 1);
      InsertPosBounds(keys, l, n - 1);
      Insert(keys, l, n - 1)
  }

  /** The stable argsort of all keys. */
  function Argsort(keys: seq<real>): (r: seq<nat>)
    ensures InRange(r, |keys|) && |r| == |keys|
  {
    ArgsortPrefix(keys, |keys|)
  }

  lemma {:induction false} InsertPosBounds(keys: seq<real>, l: seq<nat>, i: nat)
    requires InRange(l, |keys|) && i < |keys|
    ensures InRange(Insert(keys, l, i), |keys|)
    ensures |Insert(keys, l, i)| == |l| + 1
  {
    var p := InsertPos(keys, l, i);
    var r := Insert(keys, l, i);
    assert |r| == |l| + 1;
    forall k | 0 <= k < |r| ensures r[k] < |keys| {
      if k < p { assert r[k] == l[k]; } else if k > p { assert r[k] == l[k - 1]; }
    }
  }

  /** On a sorted list the insertion point splits the keys: at most `keys[i]`
      before it, strictly more after it. */
  lemma {:induction false} InsertPosSplits(keys: seq<real>, l: seq<nat>, i: nat)
    requires InRange(l, |keys|) && i < |keys| && SortedBy(keys, l)
    ensures forall k :: 0 <= k < InsertPos(keys, l, i) ==> keys[l[k]] <= keys[i]
    ensures forall k :: InsertPos(keys, l, i) <= k < |l| ==> keys[i] < keys[l[k]]
    decreases |l|
  {
    if l == [] {
    } else if keys[i] < keys[l[0]] {
      forall k | 0 <= k < |l| ensures keys[i] < keys[l[k]] {
        if k > 0 { assert keys[l[0]] <= keys[l[k]]; }
      }
    } else {
      var t := l[1..];
      assert InRange(t, |keys|);
      assert SortedBy(keys, t) by {
        forall a, b | 0 <= a < b < |t| ensures keys[t[a]] <= keys[t[b]] {
          assert t[a] == l[a + 1] && t[b] == l[b + 1];
        }
      }
      InsertPosSplits(keys, t, i);
      var p := InsertPos(keys, l, i);
      assert p == 1 + InsertPos(keys, t, i);
      forall k | 0 <= k < p ensures keys[l[k]] <= keys[i] {
        if k > 0 { assert l[k] == t[k - 1]; }
      }
      forall k | p <= k < |l| ensures keys[i] < keys[l[k]] {
        assert l[k] == t[k - 1];
      }
    }
  }

  /** Two entries of the list after the insertion, in list order, are
      distinct, ordered by key, and ordered by index when their keys tie. */
  lemma InsertPair(keys: seq<real>, l: seq<nat>, i: nat, a: nat, b: nat)
    requires i < |keys| && IsPermutation(l, i) && SortedBy(keys, l) && Stable(keys, l)
    requires InRange(Insert(keys, l, i), |keys|) && a < b < |l| + 1 == |Insert(keys, l, i)|
    requires forall k :: 0 <= k < InsertPos(keys, l, i) ==> keys[l[k]] <= keys[i]
    requires forall k :: InsertPos(keys, l, i) <= k < |l| ==> keys[i] < keys[l[k]]
    ensures var r := Insert(keys, l, i);
            r[a] != r[b] && keys[r[a]] <= keys[r[b]] && (keys[r[a]] == keys[r[b]] ==> r[a] < r[b])
  {
    var p := InsertPos(keys, l, i);
    var r := Insert(keys, l, i);
    if b < p {
      assert r[a] == l[a] && r[b] == l[b];
    } else if b == p {
      assert r[a] == l[a] && r[b] == i;
    } else if a < p {
      assert r[a] == l[a] && r[b] == l[b - 1];
    } else if a == p {
      assert r[a] == i && r[b] == l[b - 1];
    } else {
      assert r[a] == l[a - 1] && r[b] == l[b - 1];
    }
  }

  /** Inserting a new, larger index into a sorted stable permutation of
      0 .. i-1 gives a sorted stable permutation of 0 .. i. */
  lemma InsertKeepsOrder(keys: seq<real>, l: seq<nat>, i: nat)
    requires i < |keys| && IsPermutation(l, i) && SortedBy(keys, l) && Stable(keys, l)
    ensures InRange(Insert(keys, l, i), |keys|)
    ensures IsPermutation(Insert(keys, l, i), i + 1)
    ensures SortedBy(keys, Insert(keys, l, i)) && Stable(keys, Insert(keys, l, i))
  {
    InsertPosBounds(keys, l, i);
    InsertPosSplits(keys, l, i);
    var p := InsertPos(keys, l, i);
    var r := Insert(keys, l, i);
    forall k | 0 <= k < |r| ensures r[k] < i + 1 {
      if k < p { assert r[k] == l[k]; } else if k > p { assert r[k] == l[k - 1]; }
    }
    forall a, b | 0 <= a < b < |r|
      ensures r[a] != r[b]
      ensures keys[r[a]] <= keys[r[b]]
      ensures keys[r[a]] == keys[r[b]] ==> r[a] < r[b]
    {
      InsertPair(keys, l, i, a, b);
    }
  }

  lemma {:induction false} ArgsortPrefixSorts(keys: seq<real>, n: nat)
    requires n <= |keys|
    ensures IsPermutation(ArgsortPrefix(keys, n), n)
    ensures InRange(ArgsortPrefix(keys, n), |keys|)
    ensures SortedBy(keys, ArgsortPrefix(keys, n)) && Stable(keys, ArgsortPrefix(keys, n))
  {
    if n > 0 {
      ArgsortPrefixSorts(keys, n - 1);
      InsertKeepsOrder(keys, ArgsortPrefix(keys, n - 1), n - 1);
    }
  }

  /** `argsort` returns a permutation of the indices that orders the keys and
      keeps equal keys in their original order. */
  lemma ArgsortSorts(keys: seq<real>)
    ensures IsPermutation(Argsort(keys), |keys|)
    ensures SortedBy(keys, Argsort(keys)) && Stable(keys, Argsort(keys))
  {
    ArgsortPrefixSorts(keys, |keys|);
  }

  /** Keys already in order are left where they are: the argsort is the
      identity exactly when the keys are non-decreasing. */
  lemma {:induction false} ArgsortIdentityIff(keys: seq<real>)
    ensures Argsort(keys) == Identity(|keys|) <==> NonDecreasing(keys)
  {
    ArgsortSorts(keys);
    if NonDecreasing(keys) {
      SortedPrefixIsIdentity(keys, |keys|);
    }
    if Argsort(keys) == Identity(|keys|) {
      var id := Identity(|keys|);
      forall a, b | 0 <= a < b < |keys| ensures keys[a] <= keys[b] {
        assert keys[id[a]] <= keys[id[b]];
      }
    }
  }

  lemma {:induction false} SortedPrefixIsIdentity(keys: seq<real>, n: nat)
    requires n <= |keys| && NonDecreasing(keys)
    ensures ArgsortPrefix(keys, n) == Identity(n)
  {
    if n > 0 {
      SortedPrefixIsIdentity(keys, n - 1);
      var l := Identity(n - 1);
      NoLaterSmallerKey(keys, l, n - 1);
      assert InsertPos(keys, l, n - 1) == |l|;
      assert Insert(keys, l, n - 1) == l + [n - 1];
    }
  }

  /** With sorted keys, the new last index goes behind every earlier one. */
  lemma {:induction false} NoLaterSmallerKey(keys: seq<real>, l: seq<nat>, i: nat)
    requires i < |keys| && NonDecreasing(keys) && InRange(l, i)
    ensures InsertPos(keys, l, i) == |l|
    decreases |l|
  {
    if l != [] {
      assert keys[l[0]] <= keys[i];
      assert InRange(l[1..], i);
      NoLaterSmallerKey(keys, l[1..], i);
    }
  }
}
