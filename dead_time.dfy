/** The GBM dead-time automaton `_gbm_dead_time`, identical in
    cosmogrb/lightcurve/gbm_lightcurve.py and the older
    cosmogrb/lightcurve.py. One pass over a time-ordered event stream: an
    event is recorded only if it arrives strictly after the current dead
    window has ended. Only events in the overflow channel 127 re-arm the
    window; every other recorded event leaves it where it was. */
module DeadTime {

  /** Dead time after an ordinary event, in seconds (2.6 microseconds). */
  const DeadTimeAfterEvent: real := 0.0000026
  /** Dead time after an event in the overflow channel (10.6 microseconds). */
  const OverflowDeadTime: real := 0.0000106
  /** Declared next to the other two, and never used. */
  const ParDeadTime: real := 0.0000005
  /** The overflow channel. */
  const OverflowChannel: int := 127

  /** The end of the dead window set by the first event. */
  function InitialWindowEnd(t0: real, pha0: int): real
  {
    if pha0 == OverflowChannel then t0 + OverflowDeadTime else t0 + DeadTimeAfterEvent
  }

  /** One step of the automaton after the first event: an event arriving
      strictly after the window end is recorded, and re-arms the window only
      if it sits in the overflow channel. */
  function AdvanceWindow(tEnd: real, t: real, pha: int): real
  {
    if t > tEnd && pha == OverflowChannel then t + OverflowDeadTime else tEnd
  }

  /** `t_end` once events 0 .. k have been processed. */
  function WindowEnd(time: seq<real>, pha: seq<int>, k: nat): real
    requires |pha| == |time| && k < |time|
  {
    if k == 0 then InitialWindowEnd(time[0], pha[0])
    else AdvanceWindow(WindowEnd(time, pha, k - 1), time[k], pha[k])
  }

  /** Event `i` is recorded: the first one always, a later one when it
      arrives strictly after the window left by its predecessors. */
  predicate Kept(time: seq<real>, pha: seq<int>, i: nat)
    requires |pha| == |time| && i < |time|
  {
    i == 0 || time[i] > WindowEnd(time, pha, i - 1)
  }

  function KeptMask(time: seq<real>, pha: seq<int>): (m: seq<bool>)
    requires |pha| == |time|
    ensures |m| == |time| && forall i :: 0 <= i < |time| ==> (m[i] <==> Kept(time, pha, i))
  {
    seq(|time|, i requires 0 <= i < |time| => Kept(time, pha, i))
  }

  /** `_gbm_dead_time(time, pha, n)`: three arrays of length n; a recorded
      slot holds the event's time and channel and a set flag, every other
      slot zeros. Index 0 is read unconditionally, so the stream must not be
      empty. */
  method GbmDeadTime(time: seq<real>, pha: seq<int>)
      returns (filteredTime: seq<real>, filteredPha: seq<int>, selection: seq<bool>)
    requires |time| > 0 && |pha| == |time|
    ensures selection == KeptMask(time, pha)
    ensures |filteredTime| == |filteredPha| == |time|
    ensures forall i :: 0 <= i < |time| ==>
              filteredTime[i] == (if selection[i] then time[i] else 0.0) &&
              filteredPha[i] == (if selection[i] then pha[i] else 0)
  {
    var n := |time|;
    var ft := new real[n](_ => 0.0);
    var fp := new int[n](_ => 0);
    var sel := new bool[n](_ => false);
    ft[0] := time[0];
    fp[0] := pha[0];
    sel[0] := true;
    var tEnd: real;
    if pha[0] == OverflowChannel {
      tEnd := time[0] + OverflowDeadTime;
    } else {
      tEnd := time[0] + DeadTimeAfterEvent;
    }
    var i := 1;
    while i < n
      invariant 1 <= i <= n
      invariant tEnd == WindowEnd(time, pha, i - 1)
      invariant forall j {:trigger sel[j]} :: 0 <= j < n ==> sel[j] == (j < i && Kept(time, pha, j))
      invariant forall j {:trigger ft[j]} :: 0 <= j < n ==> ft[j] == (if sel[j] then time[j] else 0.0)
      invariant forall j {:trigger fp[j]} :: 0 <= j < n ==> fp[j] == (if sel[j] then pha[j] else 0)
    {
      if time[i] > tEnd {
        ft[i] := time[i];
        fp[i] := pha[i];
        sel[i] := true;
        if pha[i] == OverflowChannel {
          tEnd := time[i] + OverflowDeadTime;
        }
      }
      i := i + 1;
    }
    filteredTime, filteredPha, selection := ft[..], fp[..], sel[..];
  }

  /** The selection `_gbm_dead_time` returns: the first event is always
      recorded, and a later event exactly when it arrives strictly after the
      current window end. */
  lemma KeptMaskFirstAndLater(time: seq<real>, pha: seq<int>, i: nat)
    requires |pha| == |time| && 0 < i < |time|
    ensures KeptMask(time, pha)[0]
    ensures KeptMask(time, pha)[i] <==> time[i] > WindowEnd(time, pha, i - 1)
  {
  }

  /** The window end never moves backwards. */
  lemma {:induction false} WindowEndNeverDecreases(time: seq<real>, pha: seq<int>, j: nat, k: nat)
    requires |pha| == |time| && j <= k < |time|
    ensures WindowEnd(time, pha, j) <= WindowEnd(time, pha, k)
    decreases k - j
  {
    if j < k {
      WindowEndNeverDecreases(time, pha, j, k - 1);
    }
  }

  /** The window moves at event k exactly when k is recorded and sits in the
      overflow channel; then it ends 10.6 microseconds after that event. */
  lemma WindowMovesOnlyOnOverflow(time: seq<real>, pha: seq<int>, k: nat)
    requires |pha| == |time| && 1 <= k < |time|
    ensures WindowEnd(time, pha, k) != WindowEnd(time, pha, k - 1)
            <==> Kept(time, pha, k) && pha[k] == OverflowChannel
    ensures Kept(time, pha, k) && pha[k] == OverflowChannel ==>
              WindowEnd(time, pha, k) == time[k] + OverflowDeadTime
  {
  }

  /** Every recorded event after the first falls strictly after the end of
      the dead window opened by every earlier recorded event in the overflow
      channel. */
  lemma KeptAfterOverflowWindow(time: seq<real>, pha: seq<int>, i: nat, j: nat)
    requires |pha| == |time| && i < j < |time|
    requires Kept(time, pha, i) && pha[i] == OverflowChannel && Kept(time, pha, j)
    ensures time[j] > time[i] + OverflowDeadTime
  {
    if i == 0 {
      WindowEndNeverDecreases(time, pha, 0, j - 1);
    } else {
      WindowMovesOnlyOnOverflow(time, pha, i);
      WindowEndNeverDecreases(time, pha, i, j - 1);
    }
  }

  /** Ordinary events do not re-arm the window: after a first event at 0 in
      channel 0, events at 3 and 4 microseconds are both recorded, although
      the second falls within 2.6 microseconds of the first. */
  lemma OrdinaryEventsDoNotRearm()
    ensures var time := [0.0, 0.000003, 0.000004];
            var pha := [0, 0, 0];
            Kept(time, pha, 1) && Kept(time, pha, 2) && time[2] - time[1] < DeadTimeAfterEvent
  {
  }

  // ---------------------------------------------------------------------
  // The automaton with every recorded event re-arming the window.

  /** `t_end` when every recorded event opens its own dead window: 10.6
      microseconds after an overflow event, 2.6 after any other. */
  function RearmedWindowEnd(time: seq<real>, pha: seq<int>, k: nat): real
    requires |pha| == |time| && k < |time|
  {
    if k == 0 then InitialWindowEnd(time[0], pha[0])
    else
      var prev := RearmedWindowEnd(time, pha, k - 1);
      if time[k] > prev then InitialWindowEnd(time[k], pha[k]) else prev
  }

  predicate RearmedKept(time: seq<real>, pha: seq<int>, i: nat)
    requires |pha| == |time| && i < |time|
  {
    i == 0 || time[i] > RearmedWindowEnd(time, pha, i - 1)
  }

  lemma {:induction false} RearmedWindowEndNeverDecreases(time: seq<real>, pha: seq<int>, j: nat, k: nat)
    requires |pha| == |time| && j <= k < |time|
    ensures RearmedWindowEnd(time, pha, j) <= RearmedWindowEnd(time, pha, k)
    decreases k - j
  {
    if j < k {
      RearmedWindowEndNeverDecreases(time, pha, j, k - 1);
    }
  }

  /** With re-arming, a recorded event falls after the whole dead window of
      every earlier recorded event: more than 10.6 microseconds after an
      overflow event, more than 2.6 after any other, in any channel. */
  lemma RearmedKeptAreSeparated(time: seq<real>, pha: seq<int>, i: nat, j: nat)
    requires |pha| == |time| && i < j < |time|
    requires RearmedKept(time, pha, i) && RearmedKept(time, pha, j)
    ensures time[j] > InitialWindowEnd(time[i], pha[i])
    ensures time[j] > time[i] + DeadTimeAfterEvent
  {
    assert RearmedWindowEnd(time, pha, i) == InitialWindowEnd(time[i], pha[i]);
    RearmedWindowEndNeverDecreases(time, pha, i, j - 1);
  }
}
