/** The numpy reductions the simulation leans on: sums and cumulative sums,
    the first position of a maximum or a minimum (`argmax`, `argmin`), the
    left `searchsorted`, `diff`, mid-points and `linspace`. */
module Reductions {
  import opened Sorting

  /** `np.sum` of a one-dimensional array. */
  function Sum(s: seq<real>): real
  {
    if s == [] then 0.0 else Sum(s[..|s| - 1]) + s[|s| - 1]
  }

  predicate NonNegative(s: seq<real>) {
    forall k :: 0 <= k < |s| ==> 0.0 <= s[k]
  }

  /** `np.cumsum`: entry k is the sum of the first k+1 entries. */
  function CumSum(s: seq<real>): (r: seq<real>)
    ensures |r| == |s|
    ensures forall k :: 0 <= k < |s| ==> r[k] == Sum(s[..k + 1])
  {
    if s == [] then []
    else
      var p := CumSum(s[..|s| - 1]);
      assert forall k :: 0 <= k < |s| - 1 ==> p[k] == Sum(s[..k + 1]) by {
        forall k | 0 <= k < |s| - 1 ensures p[k] == Sum(s[..k + 1]) {
          assert s[..|s| - 1][..k + 1] == s[..k + 1];
        }
      }
      assert s[..|s|] == s;
      p + [Sum(s)]
  }

  /** Every entry multiplied by `c`. */
  function Scale(s: seq<real>, c: real): (r: seq<real>)
    ensures |r| == |s| && forall k :: 0 <= k < |s| ==> r[k] == c * s[k]
  {
    seq(|s|, k requires 0 <= k < |s| => c * s[k])
  }

  lemma {:induction false} SumScale(s: seq<real>, c: real)
    ensures Sum(Scale(s, c)) == c * Sum(s)
  {
    if s != [] {
      var t := Scale(s, c);
      SumScale(s[..|s| - 1], c);
      var u := Scale(s[..|s| - 1], c);
      forall k | 0 <= k < |s| - 1 ensures t[..|s| - 1][k] == u[k] {
        assert s[..|s| - 1][k] == s[k];
      }
      assert t[..|s| - 1] == u;
      assert Sum(t) == Sum(t[..|t| - 1]) + t[|t| - 1];
    }
  }

  lemma {:induction false} SumNonNegative(s: seq<real>)
    requires NonNegative(s)
    ensures 0.0 <= Sum(s)
  {
    if s != [] {
      SumNonNegative(s[..|s| - 1]);
    }
  }

  /** A non-negative sum is zero only when every entry is. */
  lemma {:induction false} ZeroSumOfNonNegative(s: seq<real>)
    requires NonNegative(s) && Sum(s) == 0.0
    ensures forall k :: 0 <= k < |s| ==> s[k] == 0.0
  {
    if s != [] {
      SumNonNegative(s[..|s| - 1]);
      ZeroSumOfNonNegative(s[..|s| - 1]);
      assert forall k :: 0 <= k < |s| - 1 ==> s[k] == s[..|s| - 1][k];
    }
  }

  /** The cumulative sum of non-negative entries never decreases, and its
      last entry is the total. */
  lemma CumSumOfNonNegative(s: seq<real>)
    requires NonNegative(s)
    ensures NonDecreasing(CumSum(s))
    ensures s != [] ==> CumSum(s)[|s| - 1] == Sum(s)
  {
    var r := CumSum(s);
    forall a, b | 0 <= a < b < |r| ensures r[a] <= r[b] {
      PrefixSumGrows(s, a + 1, b + 1);
    }
    assert s[..|s|] == s;
  }

  lemma {:induction false} PrefixSumGrows(s: seq<real>, i: nat, j: nat)
    requires NonNegative(s) && i <= j <= |s|
    ensures Sum(s[..i]) <= Sum(s[..j])
    decreases j - i
  {
    if i < j {
      PrefixSumGrows(s, i, j - 1);
      assert s[..j][..j - 1] == s[..j - 1];
    }
  }

  /** `np.argmax`: the first position holding the largest entry. */
  function ArgMax(s: seq<real>): (k: nat)
    requires |s| > 0
    ensures k < |s|
    ensures forall j :: 0 <= j < |s| ==> s[j] <= s[k]
    ensures forall j :: 0 <= j < k ==> s[j] < s[k]
  {
    if |s| == 1 then 0
    else
      var k := ArgMax(s[..|s| - 1]);
      if s[|s| - 1] > s[k] then |s| - 1 else k
  }

  /** `np.argmin`: the first position holding the smallest entry. */
  function ArgMin(s: seq<real>): (k: nat)
    requires |s| > 0
    ensures k < |s|
    ensures forall j :: 0 <= j < |s| ==> s[k] <= s[j]
    ensures forall j :: 0 <= j < k ==> s[k] < s[j]
  {
    if |s| == 1 then 0
    else
      var k := ArgMin(s[..|s| - 1]);
      if s[|s| - 1] < s[k] then |s| - 1 else k
  }

  /** `np.max`: the largest entry, which is one of the entries. */
  function Max(s: seq<real>): (m: real)
    requires |s| > 0
    ensures m in s
    ensures forall j :: 0 <= j < |s| ==> s[j] <= m
  {
    s[ArgMax(s)]
  }

  /** `np.searchsorted(a, v)` with the default left side: the first position
      whose entry is at least `v`, or `|a|` when there is none. On a sorted
      array that is the number of entries strictly below `v`. */
  function SearchSortedLeft(a: seq<real>, v: real): (p: nat)
    ensures p <= |a|
    ensures forall k :: 0 <= k < p ==> a[k] < v
    ensures p < |a| ==> v <= a[p]
  {
    if a == [] || v <= a[0] then 0 else 1 + SearchSortedLeft(a[1..], v)
  }

  /** `np.searchsorted(a, v, side="right")`: the first position whose entry
      exceeds `v`, or `|a|` when there is none. */
  function SearchSortedRight(a: seq<real>, v: real): (p: nat)
    ensures p <= |a|
    ensures forall k :: 0 <= k < p ==> a[k] <= v
    ensures p < |a| ==> v < a[p]
  {
    if a == [] || v < a[0] then 0 else 1 + SearchSortedRight(a[1..], v)
  }

  /** On a sorted array, the left insertion point splits it: every entry
      before it lies below `v`, every entry from it on is at least `v`. */
  lemma SearchSortedLeftSplits(a: seq<real>, v: real)
    requires NonDecreasing(a)
    ensures forall k :: SearchSortedLeft(a, v) <= k < |a| ==> v <= a[k]
  {
    var p := SearchSortedLeft(a, v);
    if p < |a| {
      forall k | p <= k < |a| ensures v <= a[k] {
        assert a[p] <= a[k];
      }
    }
  }

  /** `np.diff`: consecutive differences. */
  function Diff(s: seq<real>): (r: seq<real>)
    ensures |r| == if s == [] then 0 else |s| - 1
    ensures forall k :: 0 <= k < |r| ==> s[k] + r[k] == s[k + 1]
  {
    if |s| <= 1 then [] else seq(|s| - 1, k requires 0 <= k < |s| - 1 => s[k + 1] - s[k])
  }

  /** `(s[:-1] + s[1:]) / 2`. */
  function MidPoints(s: seq<real>): (r: seq<real>)
    ensures |r| == if s == [] then 0 else |s| - 1
    ensures forall k :: 0 <= k < |r| ==> r[k] - s[k] == s[k + 1] - r[k]
  {
    if |s| <= 1 then [] else seq(|s| - 1, k requires 0 <= k < |s| - 1 => (s[k] + s[k + 1]) / 2.0)
  }

  /** Strictly increasing edges give positive widths and mid-points strictly
      inside their bins. */
  lemma BinsOfIncreasingEdges(s: seq<real>)
    requires forall a, b :: 0 <= a < b < |s| ==> s[a] < s[b]
    ensures forall k :: 0 <= k < |Diff(s)| ==> 0.0 < Diff(s)[k]
    ensures forall k :: 0 <= k < |MidPoints(s)| ==> s[k] < MidPoints(s)[k] < s[k + 1]
  {
  }

  /** `n - 1` steps of `(b - a) / (n - 1)` lead from `a` to `b`. */
  lemma StepsSpanRange(a: real, b: real, m: real)
    requires m > 0.0
    ensures m * ((b - a) / m) == b - a
  {
  }

  /** One more step adds the step once. */
  lemma NextStep(a: real, step: real, k: real)
    ensures (a + (k + 1.0) * step) - (a + k * step) == step
  {
  }

  /** `np.linspace(a, b, n)`: n evenly spaced points from a to b inclusive.
      As in numpy, point k is `a + k * step` with `step = (b - a) / (n - 1)`,
      and the last point is set to `b` exactly. */
  function Linspace(a: real, b: real, n: nat): (r: seq<real>)
    ensures |r| == n
    ensures n >= 1 ==> r[0] == a
    ensures n >= 2 ==> r[n - 1] == b
    ensures n >= 2 ==> forall k :: 0 <= k < n - 1 ==> r[k + 1] - r[k] == (b - a) / (n - 1) as real
  {
    if n == 0 then []
    else if n == 1 then [a]
    else
      var step := (b - a) / (n - 1) as real;
      var r := seq(n, k requires 0 <= k < n => if k == n - 1 then b else a + (k as real) * step);
      assert forall k :: 0 <= k < n - 1 ==> r[k + 1] - r[k] == step by {
        forall k | 0 <= k < n - 1 ensures r[k + 1] - r[k] == step {
          NextStep(a, step, k as real);
          if k == n - 2 {
            StepsSpanRange(a, b, (n - 1) as real);
          }
        }
      }
      r
  }
}
