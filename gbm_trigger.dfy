/** The GBM trigger of cosmogrb/instruments/gbm/gbm_trigger.py. It orders
    the NaI detectors of a saved GRB by their angle to the burst, then tests
    them in that order, at most `max_n_dets` of them, and declares a
    detection as soon as a detector triggers within the coincidence window
    of an earlier trigger. The per-detector analysis is not part of this
    model: what it finds for each detector (nothing, or a trigger time and
    timescale) is passed in as a function of the detector name. */
module GbmTriggers {
  import opened Common
  import opened Sorting
  import opened Selection
  import opened GrbDetectors

  // ---------------------------------------------------------------------
  // Detector order

  /** NaI detector names start with "n". */
  predicate IsNai(name: string)
  {
    |name| > 0 && name[0] == 'n'
  }

  function NaiMask(ds: seq<SavedDetector>): (m: seq<bool>)
    ensures |m| == |ds| && forall i :: 0 <= i < |ds| ==> (m[i] <==> IsNai(ds[i].name))
  {
    seq(|ds|, i requires 0 <= i < |ds| => IsNai(ds[i].name))
  }

  function Angles(ds: seq<SavedDetector>): (a: seq<real>)
    ensures |a| == |ds| && forall i :: 0 <= i < |ds| ==> a[i] == ds[i].angle
  {
    seq(|ds|, i requires 0 <= i < |ds| => ds[i].angle)
  }

  function NamesOf(ds: seq<SavedDetector>): (n: seq<string>)
    ensures |n| == |ds| && forall i :: 0 <= i < |ds| ==> n[i] == ds[i].name
  {
    seq(|ds|, i requires 0 <= i < |ds| => ds[i].name)
  }

  /** `_setup_order_by_distance`: the NaI detectors, in file order, then
      reordered by their angle to the burst. */
  function OrderByDistance(ds: seq<SavedDetector>): seq<string>
  {
    var nai := Select(ds, NaiMask(ds));
    NamesOf(Apply(nai, Argsort(Angles(nai))))
  }

  /** The NaI detectors are rearranged by a permutation into non-decreasing
      angle. */
  lemma NaiOrderSorted(nai: seq<SavedDetector>)
    ensures var idx := Argsort(Angles(nai));
            IsPermutation(idx, |nai|) && NonDecreasing(Angles(Apply(nai, idx)))
  {
    var angles := Angles(nai);
    var idx := Argsort(angles);
    ArgsortSorts(angles);
    var order := Apply(nai, idx);
    forall a, b | 0 <= a < b < |order| ensures Angles(order)[a] <= Angles(order)[b] {
      assert order[a] == nai[idx[a]] && order[b] == nai[idx[b]];
    }
  }

  /** Only NaI detectors are selected, and every one of them is. */
  lemma NaiSelection(ds: seq<SavedDetector>)
    ensures var nai := Select(ds, NaiMask(ds));
            (forall k :: 0 <= k < |nai| ==> IsNai(nai[k].name)) &&
            (forall i :: 0 <= i < |ds| && IsNai(ds[i].name) ==> ds[i] in nai)
  {
    var m := NaiMask(ds);
    var sel := SelectedIndices(m);
    var nai := Select(ds, m);
    forall k | 0 <= k < |nai| ensures IsNai(nai[k].name) {
      assert nai[k] == ds[sel[k]];
    }
    forall i | 0 <= i < |ds| && IsNai(ds[i].name) ensures ds[i] in nai {
      var k :| 0 <= k < |sel| && sel[k] == i;
      assert nai[k] == ds[i];
    }
  }

  /** The order holds every NaI detector of the file and nothing else,
      rearranged by a permutation into non-decreasing angle. */
  lemma OrderByDistanceSorted(ds: seq<SavedDetector>)
    ensures var nai := Select(ds, NaiMask(ds));
            var idx := Argsort(Angles(nai));
            var order := Apply(nai, idx);
            IsPermutation(idx, |nai|) &&
            OrderByDistance(ds) == NamesOf(order) &&
            NonDecreasing(Angles(order)) &&
            (forall k :: 0 <= k < |order| ==> IsNai(OrderByDistance(ds)[k])) &&
            (forall i :: 0 <= i < |ds| && IsNai(ds[i].name) ==> ds[i] in nai)
  {
    var nai := Select(ds, NaiMask(ds));
    NaiOrderSorted(nai);
    NaiSelection(ds);
    var idx := Argsort(Angles(nai));
    var order := Apply(nai, idx);
    forall k | 0 <= k < |order| ensures IsNai(OrderByDistance(ds)[k]) {
      assert order[k] == nai[idx[k]];
    }
  }

  // ---------------------------------------------------------------------
  // Coincidence and the trigger run

  /** `_check_simultaneous_triggers(time)`: some recorded trigger lies
      within the window of `time`, both ends included. */
  predicate Simultaneous(times: seq<real>, time: real, window: real)
  {
    exists k :: 0 <= k < |times| && times[k] - window <= time <= times[k] + window
  }

  /** The trigger's state while `process` runs: the verdict, the three
      lists it appends to and its two counters. */
  datatype TriggerState = TriggerState(detected: bool, detectors: seq<string>, times: seq<real>,
                                       scales: seq<real>, nTested: nat, nTriggered: nat)

  /** The rest of `process`'s loop from state `st`: while detectors are
      left, nothing is detected and fewer than `maxN` have been tested, the
      next detector is analysed; a trigger is recorded, and after the first
      one it is checked for coincidence with the triggers already recorded. */
  function TriggerFrom(names: seq<string>, detection: string -> Option<(real, real)>, window: real,
                       maxN: int, st: TriggerState): TriggerState
    decreases |names| - st.nTested
  {
    if !(st.nTested < |names| && !st.detected && st.nTested < maxN) then st
    else
      var name := names[st.nTested];
      match detection(name)
      case None => TriggerFrom(names, detection, window, maxN, st.(nTested := st.nTested + 1))
      case Some(d) =>
        var hit := st.nTriggered != 0 && Simultaneous(st.times, d.0, window);
        TriggerFrom(names, detection, window, maxN,
                    TriggerState(hit, st.detectors + [name], st.times + [d.0], st.scales + [d.1],
                                 st.nTested + 1, st.nTriggered + 1))
  }

  /** A run only appends: the three lists grow in lockstep by one entry per
      trigger, each new entry is what the analysis found for that detector,
      and the loop ends on one of its three exit conditions. */
  lemma {:induction false} TriggerRecords(names: seq<string>, detection: string -> Option<(real, real)>,
                                         window: real, maxN: int, st: TriggerState)
    requires |st.detectors| == |st.times| == |st.scales|
    ensures var r := TriggerFrom(names, detection, window, maxN, st);
            |r.detectors| == |r.times| == |r.scales| &&
            |r.times| - |st.times| == r.nTriggered - st.nTriggered &&
            st.detectors <= r.detectors && st.times <= r.times && st.scales <= r.scales &&
            (forall k :: |st.detectors| <= k < |r.detectors| ==>
               r.detectors[k] in names && detection(r.detectors[k]) == Some((r.times[k], r.scales[k]))) &&
            st.nTested <= r.nTested &&
            (r.nTested == st.nTested || (r.nTested <= |names| && r.nTested <= maxN)) &&
            !(r.nTested < |names| && !r.detected && r.nTested < maxN)
    decreases |names| - st.nTested
  {
    if st.nTested < |names| && !st.detected && st.nTested < maxN {
      var name := names[st.nTested];
      match detection(name)
      case None =>
        TriggerRecords(names, detection, window, maxN, st.(nTested := st.nTested + 1));
      case Some(d) =>
        var hit := st.nTriggered != 0 && Simultaneous(st.times, d.0, window);
        var next := TriggerState(hit, st.detectors + [name], st.times + [d.0], st.scales + [d.1],
                                 st.nTested + 1, st.nTriggered + 1);
        TriggerRecords(names, detection, window, maxN, next);
        var r := TriggerFrom(names, detection, window, maxN, next);
        assert r.detectors[|st.detectors|] == next.detectors[|st.detectors|];
        assert r.times[|st.times|] == next.times[|st.times|];
        assert r.scales[|st.scales|] == next.scales[|st.scales|];
    }
  }

  /** A run that starts undetected ends detected only through a coincidence:
      then it has recorded at least two triggers, the last recorded time
      lies in the window of an earlier one, and the detector that made it
      was the last one tested. */
  lemma {:induction false} TriggerDetects(names: seq<string>, detection: string -> Option<(real, real)>,
                                         window: real, maxN: int, st: TriggerState)
    requires |st.detectors| == |st.times| == |st.scales| && !st.detected
    ensures var r := TriggerFrom(names, detection, window, maxN, st);
            r.detected ==>
              r.nTriggered >= 2 && r.times != [] && r.detectors != [] && 0 < r.nTested <= |names| &&
              Simultaneous(r.times[..|r.times| - 1], r.times[|r.times| - 1], window) &&
              r.detectors[|r.detectors| - 1] == names[r.nTested - 1]
    decreases |names| - st.nTested
  {
    if st.nTested < |names| && st.nTested < maxN {
      var name := names[st.nTested];
      match detection(name)
      case None =>
        TriggerDetects(names, detection, window, maxN, st.(nTested := st.nTested + 1));
      case Some(d) =>
        var hit := st.nTriggered != 0 && Simultaneous(st.times, d.0, window);
        var next := TriggerState(hit, st.detectors + [name], st.times + [d.0], st.scales + [d.1],
                                 st.nTested + 1, st.nTriggered + 1);
        if hit {
          assert TriggerFrom(names, detection, window, maxN, next) == next;
          assert next.times[..|next.times| - 1] == st.times;
        } else {
          TriggerDetects(names, detection, window, maxN, next);
        }
    }
  }

  /** A fresh trigger's run: the three lists have equal length, at most
      `min(len(names), max_n_dets)` detectors are tested, and a detection
      needs two triggers. */
  lemma FreshTriggerRun(names: seq<string>, detection: string -> Option<(real, real)>, window: real, maxN: int)
    ensures var r := TriggerFrom(names, detection, window, maxN, TriggerState(false, [], [], [], 0, 0));
            |r.detectors| == |r.times| == |r.scales| == r.nTriggered <= r.nTested &&
            r.nTested <= |names| && (r.nTested == 0 || r.nTested <= maxN) &&
            (r.detected ==> |r.times| >= 2)
  {
    var st := TriggerState(false, [], [], [], 0, 0);
    TriggerRecords(names, detection, window, maxN, st);
    TriggerDetects(names, detection, window, maxN, st);
    TriggeredAtMostTested(names, detection, window, maxN, st);
  }

  /** No more triggers than detectors tested. */
  lemma {:induction false} TriggeredAtMostTested(names: seq<string>, detection: string -> Option<(real, real)>,
                                                window: real, maxN: int, st: TriggerState)
    requires st.nTriggered <= st.nTested
    ensures var r := TriggerFrom(names, detection, window, maxN, st);
            r.nTriggered <= r.nTested
    decreases |names| - st.nTested
  {
    if st.nTested < |names| && !st.detected && st.nTested < maxN {
      var name := names[st.nTested];
      match detection(name)
      case None =>
        TriggeredAtMostTested(names, detection, window, maxN, st.(nTested := st.nTested + 1));
      case Some(d) =>
        var hit := st.nTriggered != 0 && Simultaneous(st.times, d.0, window);
        TriggeredAtMostTested(names, detection, window, maxN,
          TriggerState(hit, st.detectors + [name], st.times + [d.0], st.scales + [d.1],
                       st.nTested + 1, st.nTriggered + 1));
    }
  }

  /** Two detectors triggering half a second apart within a 0.5 s window
      make a detection, and the third detector is never looked at. */
  lemma TwoCloseTriggersDetect()
    ensures var detection := (name: string) =>
              if name == "n1" then Some((1.0, 0.064)) else if name == "n0" then Some((1.5, 0.256)) else None;
            var r := TriggerFrom(["n1", "n0", "n2"], detection, 0.5, 12, TriggerState(false, [], [], [], 0, 0));
            r.detected && r.detectors == ["n1", "n0"] && r.times == [1.0, 1.5] && r.nTested == 2
  {
    var detection := (name: string) =>
      if name == "n1" then Some((1.0, 0.064)) else if name == "n0" then Some((1.5, 0.256)) else None;
    var names := ["n1", "n0", "n2"];
    assert "n0" != "n1" by {
      assert "n0"[1] != "n1"[1];
    }
    assert detection(names[0]) == Some((1.0, 0.064));
    assert detection(names[1]) == Some((1.5, 0.256));
    assert Simultaneous([1.0], 1.5, 0.5) by {
      assert [1.0][0] - 0.5 <= 1.5 <= [1.0][0] + 0.5;
    }
    var st0 := TriggerState(false, [], [], [], 0, 0);
    var st1 := TriggerState(false, ["n1"], [1.0], [0.064], 1, 1);
    var st2 := TriggerState(true, ["n1", "n0"], [1.0, 1.5], [0.064, 0.256], 2, 2);
    assert st1 == TriggerState(false, st0.detectors + ["n1"], st0.times + [1.0], st0.scales + [0.064], 1, 1);
    assert st2 == TriggerState(true, st1.detectors + ["n0"], st1.times + [1.5], st1.scales + [0.256], 2, 2);
    assert TriggerFrom(names, detection, 0.5, 12, st0) == TriggerFrom(names, detection, 0.5, 12, st1);
    assert TriggerFrom(names, detection, 0.5, 12, st1) == TriggerFrom(names, detection, 0.5, 12, st2);
    assert TriggerFrom(names, detection, 0.5, 12, st2) == st2;
  }

  // ---------------------------------------------------------------------
  // The trigger object

  /** `GBMTrigger` once constructed: its detector base, its settings, the
      detector order and the three trigger lists. */
  class GbmTrigger {
    const base: GrbDetector
    const threshold: real
    const window: real
    const maxNDets: int
    const lcNames: seq<string>
    var triggeredDetectors: seq<string>
    var triggeredTimes: seq<real>
    var triggeredTimeScales: seq<real>

    constructor (base: GrbDetector, threshold: real, window: real, maxNDets: int)
      ensures this.base == base && this.threshold == threshold && this.window == window
      ensures this.maxNDets == maxNDets
      ensures lcNames == OrderByDistance(base.save.detectors)
      ensures triggeredDetectors == [] && triggeredTimes == [] && triggeredTimeScales == []
    {
      this.base := base;
      this.threshold := threshold;
      this.window := window;
      this.maxNDets := maxNDets;
      lcNames := OrderByDistance(base.save.detectors);
      triggeredDetectors, triggeredTimes, triggeredTimeScales := [], [], [];
    }

    /** `_check_simultaneous_triggers(time)`: scans the recorded times and
        stops at the first one whose window holds `time`. */
    method CheckSimultaneous(time: real) returns (detected: bool)
      ensures detected == Simultaneous(triggeredTimes, time, window)
    {
      detected := false;
      var k := 0;
      while k < |triggeredTimes|
        invariant 0 <= k <= |triggeredTimes|
        invariant forall j :: 0 <= j < k ==> !(triggeredTimes[j] - window <= time <= triggeredTimes[j] + window)
      {
        if time >= triggeredTimes[k] - window && time <= triggeredTimes[k] + window {
          detected := true;
          return;
        }
        k := k + 1;
      }
    }

    /** `process`: the trigger run over the ordered detectors, from the
        current verdict and lists, with both counters at zero; the three
        lists are then copied into the base's extra information. */
    method Process(detection: string -> Option<(real, real)>)
      modifies this, base
      ensures var r := TriggerFrom(lcNames, detection, window, maxNDets,
                                   TriggerState(old(base.isDetected), old(triggeredDetectors), old(triggeredTimes),
                                                old(triggeredTimeScales), 0, 0));
              base.isDetected == r.detected && triggeredDetectors == r.detectors &&
              triggeredTimes == r.times && triggeredTimeScales == r.scales
      ensures base.extraInfo == old(base.extraInfo)["triggered_detectors" := NameList(triggeredDetectors)]
                                                  ["triggered_times" := RealList(triggeredTimes)]
                                                  ["triggered_time_scales" := RealList(triggeredTimeScales)]
    {
      var nTriggered := 0;
      var nTested := 0;
      ghost var start := TriggerState(base.isDetected, triggeredDetectors, triggeredTimes, triggeredTimeScales, 0, 0);
      while nTested < |lcNames| && !base.isDetected && nTested < maxNDets
        invariant nTested <= |lcNames|
        invariant TriggerFrom(lcNames, detection, window, maxNDets, start) ==
                  TriggerFrom(lcNames, detection, window, maxNDets,
                              TriggerState(base.isDetected, triggeredDetectors, triggeredTimes,
                                           triggeredTimeScales, nTested, nTriggered))
        invariant base.extraInfo == old(base.extraInfo)
        decreases |lcNames| - nTested
      {
        var name := lcNames[nTested];
        var found := detection(name);
        if found.Some? {
          if nTriggered != 0 {
            var simultaneous := CheckSimultaneous(found.value.0);
            if simultaneous {
              base.isDetected := true;
            }
          }
          triggeredDetectors := triggeredDetectors + [name];
          triggeredTimes := triggeredTimes + [found.value.0];
          triggeredTimeScales := triggeredTimeScales + [found.value.1];
          nTriggered := nTriggered + 1;
        }
        nTested := nTested + 1;
      }
      base.extraInfo := base.extraInfo["triggered_detectors" := NameList(triggeredDetectors)]
                                      ["triggered_times" := RealList(triggeredTimes)]
                                      ["triggered_time_scales" := RealList(triggeredTimeScales)];
    }
  }

  /** `GBMTrigger(grb_save_file_name, threshold, simul_trigger_window,
      max_n_dets)`: the detector base for instrument "GBM", then the
      detector order; a light curve made for another instrument fails.
      This is the intended construction: as written the detector base and
      the ordering read attributes the saved record does not provide, so it
      fails with AttributeError. */
  method OpenTrigger(saveFileName: string, save: GrbSave, threshold: real, window: real, maxNDets: int)
      returns (r: Result<GbmTrigger>)
    ensures r.Err? <==> !MadeFor(save, "GBM")
    ensures r.Err? ==> r.error == AssertionError
    ensures r.Ok? ==> fresh(r.value) && fresh(r.value.base) && !r.value.base.isDetected &&
                      r.value.base.outFileName == OutFileName(saveFileName) &&
                      r.value.lcNames == OrderByDistance(save.detectors) &&
                      r.value.triggeredDetectors == [] && r.value.triggeredTimes == [] &&
                      r.value.triggeredTimeScales == []
  {
    var b := OpenDetector(saveFileName, save, "GBM");
    if b.Err? {
      return Err(b.error);
    }
    var t := new GbmTrigger(b.value, threshold, window, maxNDets);
    return Ok(t);
  }
}
