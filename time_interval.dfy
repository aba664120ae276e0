/** Time intervals and ordered collections of them (cosmogrb/utils/time_interval.py).
    A `TimeInterval` is an immutable value; a `TimeIntervalSet` owns a list
    of intervals that `extend`, `pop` and the in-place merge change. */
module TimeIntervals {
  import opened Common
  import opened Sorting

  /** `exposure` is fixed when the interval is built, from the arguments as
      given, before a possible swap of inverted ends. */
  datatype TimeInterval = TimeInterval(
    start: real,
    stop: real,
    counts: Option<real>,
    deadTime: real,
    exposure: real)

  /** Every interval the constructor lets through has start <= stop. */
  predicate Valid(i: TimeInterval) {
    i.start <= i.stop
  }

  function Min(a: real, b: real): real { if a <= b then a else b }
  function Max(a: real, b: real): real { if a >= b then a else b }

  /** `TimeInterval(start, stop, counts, dead_time, swap_if_inverted)`. An
      inverted interval is refused with a RuntimeError unless the caller asked
      for the ends to be swapped; a zero-width interval is accepted. */
  function NewInterval(start: real, stop: real, counts: Option<real>, deadTime: real,
                       swapIfInverted: bool): (r: Result<TimeInterval>)
    ensures r.Ok? <==> start <= stop || swapIfInverted
    ensures r.Err? ==> r.error == RuntimeError
    ensures r.Ok? ==> Valid(r.value)
    ensures r.Ok? ==> r.value.start == Min(start, stop) && r.value.stop == Max(start, stop)
    ensures r.Ok? ==> r.value.counts == counts && r.value.deadTime == deadTime
    ensures r.Ok? ==> r.value.exposure == (stop - start) - deadTime
  {
    var exposure := (stop - start) - deadTime;
    if stop < start then
      if swapIfInverted then Ok(TimeInterval(stop, start, counts, deadTime, exposure))
      else Err(RuntimeError)
    else Ok(TimeInterval(start, stop, counts, deadTime, exposure))
  }

  /** The two-argument form used by `intersect` and the shifts. */
  function Interval(start: real, stop: real): Result<TimeInterval> {
    NewInterval(start, stop, None, 0.0, false)
  }

  function Width(i: TimeInterval): real { i.stop - i.start }

  function MidPoint(i: TimeInterval): real { (i.start + i.stop) / 2.0 }

  /** counts / exposure; no rate without counts, and a zero exposure is a
      ZeroDivisionError. */
  function Rate(i: TimeInterval): (r: Result<Option<real>>)
    ensures i.counts.None? ==> r == Ok(None)
    ensures i.counts.Some? && i.exposure != 0.0 ==>
              r.Ok? && r.value.Some? && r.value.value * i.exposure == i.counts.value
    ensures i.counts.Some? && i.exposure == 0.0 ==> r == Err(ZeroDivisionError)
  {
    match i.counts
    case None => Ok(None)
    case Some(c) => if i.exposure == 0.0 then Err(ZeroDivisionError) else Ok(Some(c / i.exposure))
  }

  /** An interval built with its ends swapped keeps the exposure computed from
      the unswapped arguments, so with a non-negative dead time that exposure
      is negative whenever the ends really were inverted. */
  lemma SwappedExposureIsNegative(start: real, stop: real, deadTime: real)
    requires stop < start && deadTime >= 0.0
    ensures NewInterval(start, stop, None, deadTime, true).Ok?
    ensures NewInterval(start, stop, None, deadTime, true).value.exposure < 0.0
    ensures Width(NewInterval(start, stop, None, deadTime, true).value) == start - stop
  {
  }

  /** `self.overlaps_with(interval)`, with `a` as self. */
  predicate Overlaps(a: TimeInterval, b: TimeInterval) {
    if b.start == a.start || b.stop == a.stop then true
    else if b.start > a.start && b.start < a.stop then true
    else if b.stop > a.start && b.stop < a.stop then true
    else if b.start < a.start && b.stop > a.stop then true
    else false
  }

  /** For intervals of positive width the case analysis of `overlaps_with`
      is the same as sharing an interior point: the later start lies before
      the earlier stop. In particular, intervals that only touch do not
      overlap. */
  lemma OverlapsIffSharedInterior(a: TimeInterval, b: TimeInterval)
    requires a.start < a.stop && b.start < b.stop
    ensures Overlaps(a, b) <==> Max(a.start, b.start) < Min(a.stop, b.stop)
  {
  }

  lemma TouchingDoNotOverlap(a: TimeInterval, b: TimeInterval)
    requires a.start < a.stop && b.start < b.stop && a.stop == b.start
    ensures !Overlaps(a, b) && !Overlaps(b, a)
  {
    OverlapsIffSharedInterior(a, b);
    OverlapsIffSharedInterior(b, a);
  }

  /** `self.intersect(interval)`. */
  function Intersect(a: TimeInterval, b: TimeInterval): (r: Result<TimeInterval>)
    requires Valid(a) && Valid(b)
    ensures r.Err? <==> !Overlaps(a, b)
    ensures r.Err? ==> r.error == IntervalsDoNotOverlap
    ensures r.Ok? ==> r.value.start == Max(a.start, b.start) && r.value.stop == Min(a.stop, b.stop)
    ensures r.Ok? ==> Contains(a, r.value) && Contains(b, r.value)
  {
    if !Overlaps(a, b) then Err(IntervalsDoNotOverlap)
    else Interval(Max(a.start, b.start), Min(a.stop, b.stop))
  }

  /** `o` covers `i`. */
  predicate Contains(o: TimeInterval, i: TimeInterval) {
    o.start <= i.start && i.stop <= o.stop
  }

  /** Sum of optional counts: only when both are present. */
  function AddCounts(a: Option<real>, b: Option<real>): Option<real> {
    if a.Some? && b.Some? then Some(a.value + b.value) else None
  }

  /** `self.merge(interval)`: the hull of two overlapping intervals, with dead
      times added and counts added when both are known. */
  function Merge(a: TimeInterval, b: TimeInterval): (r: Result<TimeInterval>)
    requires Valid(a) && Valid(b)
    ensures r.Err? <==> !Overlaps(a, b)
    ensures r.Err? ==> r.error == IntervalsDoNotOverlap
    ensures r.Ok? ==> Valid(r.value) && Contains(r.value, a) && Contains(r.value, b)
    ensures r.Ok? ==> r.value.start == Min(a.start, b.start) && r.value.stop == Max(a.stop, b.stop)
    ensures r.Ok? ==> r.value.deadTime == a.deadTime + b.deadTime
    ensures r.Ok? ==> (r.value.counts.Some? <==> a.counts.Some? && b.counts.Some?)
    ensures r.Ok? && r.value.counts.Some? ==> r.value.counts.value == a.counts.value + b.counts.value
  {
    if Overlaps(a, b) then
      NewInterval(Min(a.start, b.start), Max(a.stop, b.stop),
                  AddCounts(a.counts, b.counts), a.deadTime + b.deadTime, false)
    else Err(IntervalsDoNotOverlap)
  }

  /** `interval + number` (and `interval - number` with `-number`): a fresh
      interval whose ends are moved; counts and dead time are dropped. */
  function Shift(i: TimeInterval, n: real): (r: TimeInterval)
    requires Valid(i)
    ensures Interval(i.start + n, i.stop + n) == Ok(r)
    ensures Width(r) == Width(i) && Valid(r)
  {
    TimeInterval(i.start + n, i.stop + n, None, 0.0, (i.stop + n) - (i.start + n) - 0.0)
  }

  /** `==` on intervals looks at the two ends only. */
  predicate SameEnds(a: TimeInterval, b: TimeInterval) {
    a.start == b.start && a.stop == b.stop
  }

  /** Shifting right then left gives back an interval with the same ends. */
  lemma ShiftRoundTrip(i: TimeInterval, n: real)
    requires Valid(i)
    ensures SameEnds(Shift(Shift(i, n), -n), i)
    ensures Shift(Shift(i, n), -n) == i <==> i.counts.None? && i.deadTime == 0.0 && i.exposure == Width(i)
  {
  }

  // ---------------------------------------------------------------------
  // TimeIntervalSet

  function StartsOf(s: seq<TimeInterval>): (r: seq<real>)
    ensures |r| == |s| && forall k :: 0 <= k < |s| ==> r[k] == s[k].start
  {
    seq(|s|, k requires 0 <= k < |s| => s[k].start)
  }

  function StopsOf(s: seq<TimeInterval>): (r: seq<real>)
    ensures |r| == |s| && forall k :: 0 <= k < |s| ==> r[k] == s[k].stop
  {
    seq(|s|, k requires 0 <= k < |s| => s[k].stop)
  }

  predicate AllValid(s: seq<TimeInterval>) {
    forall k :: 0 <= k < |s| ==> Valid(s[k])
  }

  /** Starts in non-decreasing order. */
  predicate OrderedByStart(s: seq<TimeInterval>) {
    forall a, b :: 0 <= a < b < |s| ==> s[a].start <= s[b].start
  }

  /** `TimeIntervalSet.from_starts_and_stops`: the lists must have matching
      lengths (an AssertionError otherwise) and every pair must be a valid
      interval (a RuntimeError otherwise). Missing counts are None, missing
      dead times 0. */
  function FromStartsAndStops(starts: seq<real>, stops: seq<real>,
                              counts: Option<seq<Option<real>>>,
                              deadTime: Option<seq<real>>): (r: Result<seq<TimeInterval>>)
    ensures |starts| != |stops| ==> r == Err(AssertionError)
    ensures counts.Some? && |counts.value| != |starts| ==> r == Err(AssertionError)
    ensures deadTime.Some? && |deadTime.value| != |starts| ==> r == Err(AssertionError)
    ensures r.Ok? ==> |r.value| == |starts| == |stops|
    ensures r.Ok? ==> forall k :: 0 <= k < |starts| ==>
              r.value[k].start == starts[k] && r.value[k].stop == stops[k]
    ensures r.Ok? ==> forall k :: 0 <= k < |starts| ==>
              r.value[k].counts == (if counts.Some? then counts.value[k] else None) &&
              r.value[k].deadTime == (if deadTime.Some? then deadTime.value[k] else 0.0)
    ensures r.Ok? ==> AllValid(r.value)
    ensures |starts| == |stops| && (counts.Some? ==> |counts.value| == |starts|)
            && (deadTime.Some? ==> |deadTime.value| == |starts|) ==>
              (r.Ok? <==> forall k :: 0 <= k < |starts| ==> starts[k] <= stops[k])
  {
    if |starts| != |stops| then Err(AssertionError)
    else if counts.Some? && |counts.value| != |starts| then Err(AssertionError)
    else if deadTime.Some? && |deadTime.value| != |starts| then Err(AssertionError)
    else
      var cs := if counts.Some? then counts.value else seq(|starts|, _ => None);
      var ds := if deadTime.Some? then deadTime.value else seq(|starts|, _ => 0.0);
      BuildIntervals(starts, stops, cs, ds)
  }

  function BuildIntervals(starts: seq<real>, stops: seq<real>, cs: seq<Option<real>>,
                          ds: seq<real>): (r: Result<seq<TimeInterval>>)
    requires |starts| == |stops| == |cs| == |ds|
    ensures r.Ok? <==> forall k :: 0 <= k < |starts| ==> starts[k] <= stops[k]
    ensures r.Err? ==> r.error == RuntimeError
    ensures r.Ok? ==> |r.value| == |starts| && AllValid(r.value)
    ensures r.Ok? ==> forall k :: 0 <= k < |starts| ==>
              r.value[k] == NewInterval(starts[k], stops[k], cs[k], ds[k], false).value
  {
    if starts == [] then Ok([])
    else
      match NewInterval(starts[0], stops[0], cs[0], ds[0], false)
      case Err(e) => Err(e)
      case Ok(i) =>
        match BuildIntervals(starts[1..], stops[1..], cs[1..], ds[1..])
        case Err(e) => Err(e)
        case Ok(rest) => Ok([i] + rest)
  }

  /** Consecutive intervals touch: each start equals the previous stop (exact
      comparison in place of numpy's `allclose` tolerance). */
  predicate Contiguous(s: seq<TimeInterval>) {
    forall k :: 0 <= k < |s| - 1 ==> s[k + 1].start == s[k].stop
  }

  /** `TimeIntervalSet.__eq__`: the two sets are walked in start order with
      `zip`, which stops at the shorter one, and compared by ends. */
  predicate SetEquals(s: seq<TimeInterval>, t: seq<TimeInterval>) {
    var ixs, ixt := Argsort(StartsOf(s)), Argsort(StartsOf(t));
    forall k :: 0 <= k < |s| && k < |t| ==> SameEnds(s[ixs[k]], t[ixt[k]])
  }

  /** Because of the `zip`, a set compares equal to every prefix of its own
      start-ordered list; in particular the empty set equals every set. */
  lemma EmptySetEqualsAny(t: seq<TimeInterval>)
    ensures SetEquals([], t) && SetEquals(t, [])
  {
  }

  /** Where the `merge_intersecting_intervals` loop leaves things: the merged
      intervals emitted, and what is left on the stack (at most one). */
  function MergePass(s: seq<TimeInterval>): (r: (seq<TimeInterval>, seq<TimeInterval>))
    requires AllValid(s)
    ensures |r.1| <= 1 && AllValid(r.0) && AllValid(r.1)
    ensures |r.0| + |r.1| <= |s|
    ensures |s| > 0 ==> |r.0| + |r.1| > 0
    decreases |s|
  {
    if |s| <= 1 then ([], s)
    else if Overlaps(s[0], s[1]) then
      var rest := MergePass(s[2..]);
      ([Merge(s[0], s[1]).value] + rest.0, rest.1)
    else
      var rest := MergePass(s[1..]);
      ([s[0]] + rest.0, rest.1)
  }

  /** The leftover step after the loop: the last emitted interval absorbs the
      leftover when they overlap. */
  function MergeTail(emitted: seq<TimeInterval>, left: seq<TimeInterval>): (r: seq<TimeInterval>)
    requires |left| <= 1 && AllValid(emitted) && AllValid(left)
    ensures AllValid(r)
  {
    if left == [] then emitted
    else if emitted == [] then left
    else if Overlaps(emitted[|emitted| - 1], left[0]) then
      emitted[..|emitted| - 1] + [Merge(emitted[|emitted| - 1], left[0]).value]
    else emitted + left
  }

  /** What `merge_intersecting_intervals` produces from the sorted list. */
  function MergeIntersecting(s: seq<TimeInterval>): (r: seq<TimeInterval>)
    requires AllValid(s)
    ensures AllValid(r)
  {
    var p := MergePass(s);
    MergeTail(p.0, p.1)
  }

  /** One step of the loop, in terms of `MergePass`: when the two first
      intervals overlap, their merge is emitted and the pass goes on two
      further; otherwise the head is emitted and it goes on one further. */
  lemma MergePassMergesHead(stack: seq<TimeInterval>)
    requires AllValid(stack) && |stack| > 1 && Overlaps(stack[0], stack[1])
    ensures MergePass(stack).0 == [Merge(stack[0], stack[1]).value] + MergePass(stack[2..]).0
    ensures MergePass(stack).1 == MergePass(stack[2..]).1
  {
  }

  lemma MergePassEmitsHead(stack: seq<TimeInterval>)
    requires AllValid(stack) && |stack| > 1 && !Overlaps(stack[0], stack[1])
    ensures MergePass(stack).0 == [stack[0]] + MergePass(stack[1..]).0
    ensures MergePass(stack).1 == MergePass(stack[1..]).1
  {
  }

  /** The loop of `merge_intersecting_intervals` over an already sorted list:
      pop the head, and merge it with the next one when they overlap, until
      at most one interval is left on the stack. */
  method MergeLoop(sorted: seq<TimeInterval>) returns (emitted: seq<TimeInterval>, stack: seq<TimeInterval>)
    requires AllValid(sorted)
    ensures MergePass(sorted) == (emitted, stack)
  {
    stack := sorted;
    emitted := [];
    assert emitted + MergePass(stack).0 == MergePass(stack).0;
    while |stack| > 1
      invariant AllValid(stack)
      invariant MergePass(sorted).0 == emitted + MergePass(stack).0
      invariant MergePass(sorted).1 == MergePass(stack).1
      decreases |stack|
    {
      if Overlaps(stack[0], stack[1]) {
        var m := Merge(stack[0], stack[1]).value;
        MergePassMergesHead(stack);
        assert emitted + ([m] + MergePass(stack[2..]).0) == (emitted + [m]) + MergePass(stack[2..]).0;
        emitted := emitted + [m];
        stack := stack[2..];
      } else {
        var first := stack[0];
        MergePassEmitsHead(stack);
        assert emitted + ([first] + MergePass(stack[1..]).0) == (emitted + [first]) + MergePass(stack[1..]).0;
        emitted := emitted + [first];
        stack := stack[1..];
      }
    }
    assert emitted + [] == emitted;
  }

  /** `merge_intersecting_intervals` on an already sorted list: the loop,
      then the leftover is merged into the last emitted interval when they
      overlap and appended otherwise. */
  method MergeSortedIntervals(sorted: seq<TimeInterval>) returns (merged: seq<TimeInterval>)
    requires AllValid(sorted)
    ensures merged == MergeIntersecting(sorted)
  {
    var emitted, stack := MergeLoop(sorted);
    if |stack| > 0 {
      if |emitted| > 0 {
        if Overlaps(emitted[|emitted| - 1], stack[0]) {
          emitted := emitted[..|emitted| - 1] + [Merge(emitted[|emitted| - 1], stack[0]).value];
        } else {
          emitted := emitted + [stack[0]];
        }
      } else {
        emitted := emitted + [stack[0]];
      }
    }
    merged := emitted;
  }

  /** The merge never lengthens the list, and a non-empty list stays
      non-empty. */
  lemma MergeIntersectingLength(s: seq<TimeInterval>)
    requires AllValid(s)
    ensures |MergeIntersecting(s)| <= |s|
    ensures |s| > 0 ==> |MergeIntersecting(s)| > 0
  {
  }

  lemma OrderedSuffix(s: seq<TimeInterval>, skip: nat)
    requires OrderedByStart(s) && skip <= |s|
    ensures OrderedByStart(s[skip..])
  {
    var t := s[skip..];
    forall a, b | 0 <= a < b < |t| ensures t[a].start <= t[b].start {
      assert t[a] == s[a + skip] && t[b] == s[b + skip];
    }
  }

  /** An interval put in front of an ordered list whose starts are all at
      least `lo`, itself starting at `start <= lo`, gives an ordered list
      that starts at `start` and whose starts are all at least `start`. */
  lemma ConsOrdered(r: seq<TimeInterval>, head: TimeInterval, rest: seq<TimeInterval>, start: real, lo: real)
    requires r == [head] + rest && head.start == start && start <= lo
    requires OrderedByStart(rest) && forall k :: 0 <= k < |rest| ==> lo <= rest[k].start
    ensures OrderedByStart(r) && |r| > 0 && r[0].start == start
    ensures forall k :: 0 <= k < |r| ==> start <= r[k].start
  {
    forall a, b | 0 <= a < b < |r| ensures r[a].start <= r[b].start {
      assert r[b] == rest[b - 1];
      if a > 0 {
        assert r[a] == rest[a - 1];
      }
    }
    forall k | 0 < k < |r| ensures start <= r[k].start {
      assert r[k] == rest[k - 1];
    }
  }

  /** Everything the loop leaves: the emitted intervals, then the leftover. */
  function Passed(s: seq<TimeInterval>): seq<TimeInterval>
    requires AllValid(s)
  {
    MergePass(s).0 + MergePass(s).1
  }

  lemma PassedShort(s: seq<TimeInterval>)
    requires AllValid(s) && |s| <= 1
    ensures Passed(s) == s
  {
  }

  /** How many intervals one turn of the loop pops: two when the first two
      overlap, one otherwise. */
  function Skip(s: seq<TimeInterval>): nat
    requires |s| > 1
  {
    if Overlaps(s[0], s[1]) then 2 else 1
  }

  /** What one turn of the loop emits. */
  function Head(s: seq<TimeInterval>): TimeInterval
    requires AllValid(s) && |s| > 1
  {
    if Overlaps(s[0], s[1]) then Merge(s[0], s[1]).value else s[0]
  }

  /** What the loop leaves is the head it emits first, then what it leaves
      of the remainder; the head starts where the list starts. */
  lemma PassedStep(s: seq<TimeInterval>)
    requires AllValid(s) && |s| > 1
    ensures Skip(s) <= |s| && Passed(s) == [Head(s)] + Passed(s[Skip(s)..])
    ensures OrderedByStart(s) ==> Head(s).start == s[0].start
  {
    if Overlaps(s[0], s[1]) {
      MergePassMergesHead(s);
      var m := Merge(s[0], s[1]).value;
      assert ([m] + MergePass(s[2..]).0) + MergePass(s[2..]).1 == [m] + (MergePass(s[2..]).0 + MergePass(s[2..]).1);
    } else {
      MergePassEmitsHead(s);
      assert ([s[0]] + MergePass(s[1..]).0) + MergePass(s[1..]).1 == [s[0]] + (MergePass(s[1..]).0 + MergePass(s[1..]).1);
    }
  }

  /** Every output interval starts where some input interval starts. */
  lemma {:induction false} MergePassStarts(s: seq<TimeInterval>)
    requires AllValid(s) && OrderedByStart(s)
    ensures OrderedByStart(Passed(s))
    ensures |s| > 0 ==> |Passed(s)| > 0 && Passed(s)[0].start == s[0].start
    ensures forall k :: 0 <= k < |Passed(s)| ==> s[0].start <= Passed(s)[k].start
    decreases |s|
  {
    if |s| <= 1 {
      PassedShort(s);
    } else {
      PassedStep(s);
      var t := s[Skip(s)..];
      OrderedSuffix(s, Skip(s));
      MergePassStarts(t);
      var lo := if t == [] then s[0].start else t[0].start;
      assert s[0].start <= lo by {
        if t != [] {
          assert t[0] == s[Skip(s)];
        }
      }
      ConsOrdered(Passed(s), Head(s), Passed(t), s[0].start, lo);
    }
  }

  /** Given a list ordered by start, the merged list is ordered by start. */
  lemma MergeIntersectingOrdered(s: seq<TimeInterval>)
    requires AllValid(s) && OrderedByStart(s)
    ensures OrderedByStart(MergeIntersecting(s))
  {
    MergePassStarts(s);
    var p := MergePass(s);
    var all := p.0 + p.1;
    if p.1 != [] && p.0 != [] && Overlaps(p.0[|p.0| - 1], p.1[0]) {
      var last := p.0[|p.0| - 1];
      var m := Merge(last, p.1[0]).value;
      assert last == all[|p.0| - 1] && p.1[0] == all[|p.0|];
      assert m.start == last.start;
      var r := MergeIntersecting(s);
      assert r == p.0[..|p.0| - 1] + [m];
      forall a, b | 0 <= a < b < |r| ensures r[a].start <= r[b].start {
        assert r[a].start == all[a].start;
        assert r[b].start == all[b].start;
      }
    } else {
      assert MergeIntersecting(s) == all;
    }
  }

  /** Some interval of `out` covers `i`. */
  predicate Covered(out: seq<TimeInterval>, i: TimeInterval) {
    exists k :: 0 <= k < |out| && Contains(out[k], i)
  }

  /** Every interval of `s` is covered by one of `out`. */
  predicate CoversAll(out: seq<TimeInterval>, s: seq<TimeInterval>) {
    forall k :: 0 <= k < |s| ==> Covered(out, s[k])
  }

  lemma {:induction false} MergePassCovers(s: seq<TimeInterval>)
    requires AllValid(s)
    ensures CoversAll(MergePass(s).0 + MergePass(s).1, s)
    decreases |s|
  {
    var all := MergePass(s).0 + MergePass(s).1;
    if |s| <= 1 {
      assert all == s;
      forall k | 0 <= k < |s| ensures Covered(all, s[k]) {
        assert Contains(all[k], s[k]);
      }
    } else {
      var skip := if Overlaps(s[0], s[1]) then 2 else 1;
      var t := s[skip..];
      MergePassCovers(t);
      var head := if skip == 2 then Merge(s[0], s[1]).value else s[0];
      var rest := MergePass(t).0 + MergePass(t).1;
      assert all == [head] + rest;
      forall k | 0 <= k < |s| ensures Covered(all, s[k]) {
        if k < skip {
          assert Contains(all[0], s[k]);
        } else {
          assert t[k - skip] == s[k];
          assert Covered(rest, t[k - skip]);
          var q :| 0 <= q < |rest| && Contains(rest[q], s[k]);
          assert all[q + 1] == rest[q];
        }
      }
    }
  }

  /** Every input interval lies inside some output interval. */
  lemma MergeIntersectingCovers(s: seq<TimeInterval>)
    requires AllValid(s)
    ensures CoversAll(MergeIntersecting(s), s)
  {
    MergePassCovers(s);
    var p := MergePass(s);
    var all := p.0 + p.1;
    var r := MergeIntersecting(s);
    if p.1 != [] && p.0 != [] && Overlaps(p.0[|p.0| - 1], p.1[0]) {
      var last := p.0[|p.0| - 1];
      var m := Merge(last, p.1[0]).value;
      assert r == p.0[..|p.0| - 1] + [m];
      forall j | 0 <= j < |s| ensures Covered(r, s[j]) {
        assert Covered(all, s[j]);
        var q :| 0 <= q < |all| && Contains(all[q], s[j]);
        if q < |p.0| - 1 {
          assert all[q] == r[q];
        } else {
          assert all[q] == last || all[q] == p.1[0];
          assert Contains(r[|r| - 1], s[j]);
        }
      }
    } else {
      assert r == all;
    }
  }

  /** When no two neighbours overlap, nothing is merged and the list comes
      back unchanged. */
  predicate NoNeighbourOverlaps(s: seq<TimeInterval>) {
    forall k :: 0 <= k < |s| - 1 ==> !Overlaps(s[k], s[k + 1])
  }

  lemma {:induction false} MergePassKeepsDisjoint(s: seq<TimeInterval>)
    requires AllValid(s) && NoNeighbourOverlaps(s)
    ensures MergePass(s).0 + MergePass(s).1 == s
    ensures |s| > 0 ==> MergePass(s).1 == [s[|s| - 1]]
    decreases |s|
  {
    if |s| > 1 {
      assert !Overlaps(s[0], s[1]);
      var t := s[1..];
      assert NoNeighbourOverlaps(t) by {
        forall k | 0 <= k < |t| - 1 ensures !Overlaps(t[k], t[k + 1]) {
          assert t[k] == s[k + 1] && t[k + 1] == s[k + 2];
        }
      }
      MergePassKeepsDisjoint(t);
      assert s == [s[0]] + t;
    }
  }

  lemma MergeIntersectingKeepsDisjoint(s: seq<TimeInterval>)
    requires AllValid(s) && NoNeighbourOverlaps(s)
    ensures MergeIntersecting(s) == s
  {
    MergePassKeepsDisjoint(s);
    var p := MergePass(s);
    if |s| > 1 {
      assert p.0 == s[..|s| - 1];
      assert p.0[|p.0| - 1] == s[|s| - 2];
    }
  }

  /** The merge only joins neighbours, once per pass, so an interval that
      covers several later ones does not absorb all of them: in
      [0,10], [1,2], [3,4], [5,6] the first absorbs [1,2] only, and the
      output [0,10], [3,4], [5,6] still holds overlapping intervals. */
  lemma MergeOutputMayOverlap()
    ensures var s := [TimeInterval(0.0, 10.0, None, 0.0, 10.0), TimeInterval(1.0, 2.0, None, 0.0, 1.0),
                      TimeInterval(3.0, 4.0, None, 0.0, 1.0), TimeInterval(5.0, 6.0, None, 0.0, 1.0)];
            var r := MergeIntersecting(s);
            |r| == 3 && Overlaps(r[0], r[1]) && OrderedByStart(s)
  {
    var a, b := TimeInterval(0.0, 10.0, None, 0.0, 10.0), TimeInterval(1.0, 2.0, None, 0.0, 1.0);
    var c, d := TimeInterval(3.0, 4.0, None, 0.0, 1.0), TimeInterval(5.0, 6.0, None, 0.0, 1.0);
    var s := [a, b, c, d];
    assert Overlaps(a, b) && !Overlaps(c, d);
    assert MergePass([d]) == ([], [d]);
    assert [c, d][1..] == [d];
    assert MergePass([c, d]).0 == [c] + MergePass([d]).0;
    assert [c] + [] == [c];
    assert MergePass([c, d]) == ([c], [d]);
    assert s[2..] == [c, d];
    var m := Merge(a, b).value;
    assert MergePass(s).0 == [m] + MergePass([c, d]).0;
    assert [m] + [c] == [m, c];
    assert MergePass(s) == ([m, c], [d]);
    assert Overlaps(m, c) && !Overlaps(c, d);
  }

  /** For intervals in start order, not overlapping means the first ends no
      later than the second begins, and they share neither end. */
  predicate Separated(a: TimeInterval, b: TimeInterval) {
    a.stop <= b.start && a.start != b.start && a.stop != b.stop
  }

  lemma SortedNoOverlapIff(a: TimeInterval, b: TimeInterval)
    requires Valid(a) && Valid(b) && a.start <= b.start
    ensures !Overlaps(a, b) <==> Separated(a, b)
  {
  }

  lemma SeparatedChains(a: TimeInterval, b: TimeInterval, c: TimeInterval)
    requires Valid(a) && Valid(b) && Valid(c) && Separated(a, b) && Separated(b, c)
    ensures Separated(a, c)
  {
  }

  /** One step of a sweep over a start-ordered list: the new interval is
      folded into the last output interval when they overlap, appended
      otherwise. */
  function Absorb(out: seq<TimeInterval>, i: TimeInterval): (r: seq<TimeInterval>)
    requires AllValid(out) && Valid(i)
    ensures AllValid(r) && 0 < |r| <= |out| + 1
  {
    if out != [] && Overlaps(out[|out| - 1], i) then
      out[..|out| - 1] + [Merge(out[|out| - 1], i).value]
    else out + [i]
  }

  /** The merge `merge_intersecting_intervals` is documented to perform: a
      left-to-right sweep that keeps merging into the last output interval
      for as long as the next input overlaps it. */
  function MergeSweep(s: seq<TimeInterval>): (r: seq<TimeInterval>)
    requires AllValid(s)
    ensures AllValid(r) && |r| <= |s| && (|s| > 0 ==> |r| > 0)
  {
    if s == [] then [] else Absorb(MergeSweep(s[..|s| - 1]), s[|s| - 1])
  }

  predicate NeighboursSeparated(s: seq<TimeInterval>) {
    forall k :: 0 <= k < |s| - 1 ==> Separated(s[k], s[k + 1])
  }

  /** One sweep step keeps the output ordered with separated neighbours. */
  lemma AbsorbKeepsOrder(r: seq<TimeInterval>, out: seq<TimeInterval>, i: TimeInterval)
    requires AllValid(out) && Valid(i) && OrderedByStart(out) && NeighboursSeparated(out)
    requires out != [] ==> out[|out| - 1].start <= i.start
    requires r == Absorb(out, i)
    ensures OrderedByStart(r) && NeighboursSeparated(r)
    ensures |r| > 0 && r[|r| - 1].start <= i.start
  {
    if out != [] && Overlaps(out[|out| - 1], i) {
      var last := out[|out| - 1];
      var m := Merge(last, i).value;
      assert r == out[..|out| - 1] + [m];
      assert m.start == last.start;
      forall a, b | 0 <= a < b < |r| ensures r[a].start <= r[b].start {
        assert r[a].start == out[a].start && r[b].start == out[b].start;
      }
      forall k | 0 <= k < |r| - 1 ensures Separated(r[k], r[k + 1]) {
        assert r[k] == out[k];
        if k + 1 < |r| - 1 {
          assert r[k + 1] == out[k + 1];
        }
      }
    } else {
      assert r == out + [i];
      if out != [] {
        SortedNoOverlapIff(out[|out| - 1], i);
      }
      forall a, b | 0 <= a < b < |r| ensures r[a].start <= r[b].start {
        if b == |r| - 1 && b > 0 {
          assert r[a].start <= out[|out| - 1].start;
        }
      }
    }
  }

  /** One sweep step loses no covered interval and covers the new one. */
  lemma AbsorbKeepsCover(out: seq<TimeInterval>, i: TimeInterval, j: TimeInterval)
    requires AllValid(out) && Valid(i)
    requires j == i || Covered(out, j)
    ensures Covered(Absorb(out, i), j)
  {
    var r := Absorb(out, i);
    if out != [] && Overlaps(out[|out| - 1], i) {
      var m := Merge(out[|out| - 1], i).value;
      assert r == out[..|out| - 1] + [m];
      if j != i {
        var q :| 0 <= q < |out| && Contains(out[q], j);
        if q < |out| - 1 {
          assert out[q] == r[q];
        } else {
          assert Contains(r[|r| - 1], j);
        }
      } else {
        assert Contains(r[|r| - 1], j);
      }
    } else {
      assert r == out + [i];
      if j == i {
        assert Contains(r[|r| - 1], j);
      } else {
        var q :| 0 <= q < |out| && Contains(out[q], j);
        assert r[q] == out[q];
      }
    }
  }

  lemma OrderedPrefix(s: seq<TimeInterval>, n: nat)
    requires OrderedByStart(s) && n <= |s|
    ensures OrderedByStart(s[..n])
  {
    var t := s[..n];
    forall a, b | 0 <= a < b < |t| ensures t[a].start <= t[b].start {
      assert t[a] == s[a] && t[b] == s[b];
    }
  }

  /** The sweep over a non-empty list absorbs its last interval into the
      sweep over the rest. */
  lemma MergeSweepStep(s: seq<TimeInterval>)
    requires AllValid(s) && s != []
    ensures MergeSweep(s) == Absorb(MergeSweep(s[..|s| - 1]), s[|s| - 1])
  {
  }

  lemma {:induction false} MergeSweepInvariant(s: seq<TimeInterval>)
    requires AllValid(s) && OrderedByStart(s)
    ensures OrderedByStart(MergeSweep(s)) && NeighboursSeparated(MergeSweep(s))
    ensures |s| > 0 ==> MergeSweep(s)[|MergeSweep(s)| - 1].start <= s[|s| - 1].start
    decreases |s|
  {
    if s != [] {
      var init := s[..|s| - 1];
      var i := s[|s| - 1];
      OrderedPrefix(s, |s| - 1);
      MergeSweepInvariant(init);
      var out := MergeSweep(init);
      assert out != [] ==> out[|out| - 1].start <= i.start by {
        if init != [] {
          assert init[|init| - 1] == s[|s| - 2];
        }
      }
      MergeSweepStep(s);
      AbsorbKeepsOrder(MergeSweep(s), out, i);
    }
  }

  lemma {:induction false} MergeSweepCovers(s: seq<TimeInterval>)
    requires AllValid(s)
    ensures CoversAll(MergeSweep(s), s)
    decreases |s|
  {
    if s != [] {
      var init := s[..|s| - 1];
      var i := s[|s| - 1];
      MergeSweepCovers(init);
      var out := MergeSweep(init);
      assert MergeSweep(s) == Absorb(out, i);
      forall k | 0 <= k < |s| ensures Covered(MergeSweep(s), s[k]) {
        if k < |s| - 1 {
          assert init[k] == s[k];
          AbsorbKeepsCover(out, i, init[k]);
        } else {
          AbsorbKeepsCover(out, i, i);
        }
      }
    }
  }

  lemma {:induction false} SeparatedAcross(s: seq<TimeInterval>, a: nat, b: nat)
    requires AllValid(s) && NeighboursSeparated(s) && a < b < |s|
    ensures Separated(s[a], s[b])
    decreases b - a
  {
    if b > a + 1 {
      SeparatedAcross(s, a, b - 1);
      SeparatedChains(s[a], s[b - 1], s[b]);
    }
  }

  /** The sweep's output is ordered, pairwise non-overlapping, and covers
      every input interval. */
  lemma MergeSweepDisjoint(s: seq<TimeInterval>)
    requires AllValid(s) && OrderedByStart(s)
    ensures OrderedByStart(MergeSweep(s))
    ensures forall a, b :: 0 <= a < b < |MergeSweep(s)| ==>
              !Overlaps(MergeSweep(s)[a], MergeSweep(s)[b])
    ensures CoversAll(MergeSweep(s), s)
  {
    MergeSweepInvariant(s);
    MergeSweepCovers(s);
    var r := MergeSweep(s);
    forall a, b | 0 <= a < b < |r| ensures !Overlaps(r[a], r[b]) {
      SeparatedAcross(r, a, b);
      SortedNoOverlapIff(r[a], r[b]);
    }
  }

  /** On the list of `MergeOutputMayOverlap` the sweep returns the single
      interval [0, 10]. */
  lemma MergeSweepExample()
    ensures var s := [TimeInterval(0.0, 10.0, None, 0.0, 10.0), TimeInterval(1.0, 2.0, None, 0.0, 1.0),
                      TimeInterval(3.0, 4.0, None, 0.0, 1.0), TimeInterval(5.0, 6.0, None, 0.0, 1.0)];
            var r := MergeSweep(s);
            |r| == 1 && r[0].start == 0.0 && r[0].stop == 10.0
  {
    var a, b := TimeInterval(0.0, 10.0, None, 0.0, 10.0), TimeInterval(1.0, 2.0, None, 0.0, 1.0);
    var c, d := TimeInterval(3.0, 4.0, None, 0.0, 1.0), TimeInterval(5.0, 6.0, None, 0.0, 1.0);
    var s := [a, b, c, d];
    assert s[..1] == [a] && s[..2] == [a, b] && s[..3] == [a, b, c];
    assert [a][..0] == [];
    assert [a, b][..1] == [a];
    assert [a, b, c][..2] == [a, b];
    assert MergeSweep([a]) == [a];
    var m := Merge(a, b).value;
    assert MergeSweep([a, b]) == [m];
    assert MergeSweep([a, b, c]) == [Merge(m, c).value];
  }

  class TimeIntervalSet {
    var intervals: seq<TimeInterval>

    constructor (list: seq<TimeInterval>)
      ensures intervals == list
    {
      intervals := list;
    }

    function Starts(): (r: seq<real>)
      reads this
      ensures |r| == |intervals|
    {
      StartsOf(intervals)
    }

    /** `argsort`: indices that order the set by start, ties in list order. */
    function ArgsortIdx(): (r: seq<nat>)
      reads this
      ensures IsPermutation(r, |intervals|)
      ensures InRange(r, |intervals|)
      ensures forall a, b :: 0 <= a < b < |r| ==> intervals[r[a]].start <= intervals[r[b]].start
      ensures forall a, b :: 0 <= a < b < |r| && intervals[r[a]].start == intervals[r[b]].start ==>
                r[a] < r[b]
    {
      ArgsortSorts(StartsOf(intervals));
      Argsort(StartsOf(intervals))
    }

    /** `is_sorted`: the argsort is the identity. */
    predicate IsSorted()
      reads this
    {
      ArgsortIdx() == Identity(|intervals|)
    }

    lemma IsSortedIff()
      ensures IsSorted() <==> OrderedByStart(intervals)
    {
      var st := StartsOf(intervals);
      ArgsortIdentityIff(st);
      assert NonDecreasing(st) <==> OrderedByStart(intervals);
    }

    /** The contents of the copy `sort` returns: the intervals in argsort
        order. */
    function SortedIntervals(): (r: seq<TimeInterval>)
      reads this
      ensures |r| == |intervals|
      ensures OrderedByStart(r)
      ensures forall k :: 0 <= k < |r| ==> r[k] == intervals[ArgsortIdx()[k]]
    {
      var idx := ArgsortIdx();
      if IsSorted() then
        IsSortedIff();
        intervals
      else Apply(intervals, idx)
    }

    /** `sort()`: a new set holding the intervals ordered by start. */
    method Sort() returns (s: TimeIntervalSet)
      ensures fresh(s) && s.intervals == SortedIntervals()
    {
      if IsSorted() {
        s := new TimeIntervalSet(intervals);
      } else {
        s := new TimeIntervalSet(Apply(intervals, ArgsortIdx()));
      }
    }

    /** `merge_intersecting_intervals(in_place)`: returns a new set, or with
        `in_place` replaces this set's contents and returns nothing. */
    method MergeIntersectingIntervals(inPlace: bool) returns (r: TimeIntervalSet?)
      requires AllValid(intervals)
      modifies this
      ensures inPlace ==> r == null && intervals == MergeIntersecting(old(SortedIntervals()))
      ensures !inPlace ==> r != null && fresh(r) && intervals == old(intervals)
                           && r.intervals == MergeIntersecting(old(SortedIntervals()))
    {
      var sorted := Sort();
      assert AllValid(sorted.intervals) by {
        forall k | 0 <= k < |sorted.intervals| ensures Valid(sorted.intervals[k]) {
          assert sorted.intervals[k] == intervals[ArgsortIdx()[k]];
        }
      }
      var merged := MergeSortedIntervals(sorted.intervals);
      if inPlace {
        intervals := merged;
        r := null;
      } else {
        r := new TimeIntervalSet(merged);
      }
    }

    /** `extend`. */
    method Extend(more: seq<TimeInterval>)
      modifies this
      ensures intervals == old(intervals) + more
    {
      intervals := intervals + more;
    }

    /** `pop(index)` with Python's index rules: negative indices count from
        the end; anything outside the list is an IndexError and changes
        nothing. */
    method Pop(index: int) returns (r: Result<TimeInterval>)
      modifies this
      ensures var n := |old(intervals)|;
              if -n <= index < n then
                var k := if index < 0 then index + n else index;
                r == Ok(old(intervals)[k]) && intervals == old(intervals)[..k] + old(intervals)[k + 1..]
              else r == Err(IndexError) && intervals == old(intervals)
    {
      var n := |intervals|;
      if -n <= index < n {
        var k := if index < 0 then index + n else index;
        r := Ok(intervals[k]);
        intervals := intervals[..k] + intervals[k + 1..];
      } else {
        r := Err(IndexError);
      }
    }

    /** `is_contiguous`. */
    predicate IsContiguous()
      reads this
    {
      Contiguous(intervals)
    }

    /** `edges` as written. An unsorted or non-contiguous set raises
        IntervalsNotContiguous. The intervals are then fetched with
        `itemgetter(*self.argsort())`, which raises TypeError without
        arguments and, for a single index, returns the bare interval, which
        cannot be iterated: a set of fewer than two intervals raises
        TypeError. Otherwise the result is the starts followed by the final
        stop. */
    function Edges(): (r: Result<seq<real>>)
      reads this
      ensures r.Ok? <==> IsContiguous() && IsSorted() && |intervals| > 1
      ensures r.Err? ==> r.error == (if IsContiguous() && IsSorted() then TypeError else IntervalsNotContiguous)
      ensures r.Ok? ==> r == EdgesIntended()
    {
      if IsContiguous() && IsSorted() then
        if |intervals| <= 1 then Err(TypeError)
        else EdgesIntended()
      else Err(IntervalsNotContiguous)
    }

    /** The edges `edges` is meant to give: the starts, in start order,
        followed by the final stop of a contiguous, sorted set. An unsorted
        or non-contiguous set raises IntervalsNotContiguous; the empty set
        passes both checks and fails on the `[-1]` of an empty list. */
    function EdgesIntended(): (r: Result<seq<real>>)
      reads this
      ensures r.Ok? <==> IsContiguous() && IsSorted() && |intervals| > 0
      ensures r.Ok? ==> |r.value| == |intervals| + 1
      ensures r.Ok? ==> forall k :: 0 <= k < |intervals| ==>
                r.value[k] == intervals[k].start && r.value[k + 1] == intervals[k].stop
    {
      if IsContiguous() && IsSorted() then
        if |intervals| == 0 then Err(IndexError)
        else
          var idx := ArgsortIdx();
          assert forall k :: 0 <= k < |intervals| ==> idx[k] == k;
          Ok(StartsOf(Apply(intervals, idx)) + [StopsOf(Apply(intervals, idx))[|intervals| - 1]])
      else Err(IntervalsNotContiguous)
    }

    /** A set of one interval is contiguous and sorted, yet `edges` as
        written fails on it, where the intended edges are its two ends. */
    lemma EdgesOfOneIntervalFail()
      requires |intervals| == 1
      ensures Edges() == Err(TypeError)
      ensures EdgesIntended() == Ok([intervals[0].start, intervals[0].stop])
    {
      IsSortedIff();
      assert IsContiguous() && IsSorted();
      var r := EdgesIntended();
      assert r.Ok? && |r.value| == 2;
      assert r.value[0] == intervals[0].start && r.value[1] == intervals[0].stop;
      assert r.value == [intervals[0].start, intervals[0].stop];
    }

    /** `set + number` (and `set - number` with `-number`): a new set of
        shifted intervals in the same order. */
    method ShiftedBy(n: real) returns (s: TimeIntervalSet)
      requires AllValid(intervals)
      ensures fresh(s) && |s.intervals| == |intervals|
      ensures forall k :: 0 <= k < |intervals| ==> s.intervals[k] == Shift(intervals[k], n)
    {
      s := new TimeIntervalSet([]);
      s.Extend(ShiftAll(intervals, n));
    }
  }

  function ShiftAll(s: seq<TimeInterval>, n: real): (r: seq<TimeInterval>)
    requires AllValid(s)
    ensures |r| == |s| && forall k :: 0 <= k < |s| ==> r[k] == Shift(s[k], n)
  {
    seq(|s|, k requires 0 <= k < |s| => Shift(s[k], n))
  }

  /** Shifting a whole set moves every start by the same amount, so the
      start order, and with it the argsort, is unchanged. */
  lemma ShiftKeepsOrder(s: seq<TimeInterval>, n: real)
    requires AllValid(s)
    ensures Argsort(StartsOf(ShiftAll(s, n))) == Argsort(StartsOf(s))
    ensures OrderedByStart(ShiftAll(s, n)) <==> OrderedByStart(s)
  {
    var a, b := StartsOf(s), StartsOf(ShiftAll(s, n));
    SameOrderSameArgsort(a, b, |s|);
  }

  /** Two key lists that compare the same way pairwise have the same
      argsort. */
  lemma {:induction false} SameOrderSameArgsort(a: seq<real>, b: seq<real>, n: nat)
    requires |a| == |b| && n <= |a|
    requires forall i, j :: 0 <= i < |a| && 0 <= j < |a| ==> (a[i] < a[j] <==> b[i] < b[j])
    ensures ArgsortPrefix(a, n) == ArgsortPrefix(b, n)
  {
    if n > 0 {
      SameOrderSameArgsort(a, b, n - 1);
      SameOrderSameInsertPos(a, b, ArgsortPrefix(a, n - 1), n - 1);
    }
  }

  lemma {:induction false} SameOrderSameInsertPos(a: seq<real>, b: seq<real>, l: seq<nat>, i: nat)
    requires |a| == |b| && i < |a| && InRange(l, |a|)
    requires forall x, y :: 0 <= x < |a| && 0 <= y < |a| ==> (a[x] < a[y] <==> b[x] < b[y])
    ensures InsertPos(a, l, i) == InsertPos(b, l, i)
    decreases |l|
  {
    if l != [] {
      SameOrderSameInsertPos(a, b, l[1..], i);
    }
  }
}
