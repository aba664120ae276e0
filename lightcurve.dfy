/** The per-detector light curve of cosmogrb/lightcurve/lightcurve.py and
    its GBM specialisation in cosmogrb/lightcurve/gbm_lightcurve.py. A light
    curve samples its source (arrival times, photon energies, channels) and
    its background (arrival times, channels), merges the two event lists in
    time order and, for GBM, drops the events lost to dead time. */
module LightCurves {
  import opened Common
  import opened Sorting
  import opened Selection
  import opened DeadTime
  import opened Responses
  import opened Samplers
  import opened Background
  import opened Sources

  /** `_combine` on values: the background events followed by the source
      events, reordered by arrival time. Reading the channels along the
      time order fails when there are fewer channels than times. */
  function Combined(bkgTimes: seq<real>, srcTimes: seq<real>, bkgPha: seq<int>, srcPha: seq<int>)
    : (r: Result<(seq<real>, seq<int>)>)
    ensures r.Err? <==> |bkgPha| + |srcPha| < |bkgTimes| + |srcTimes|
    ensures r.Err? ==> r.error == IndexError
    ensures r.Ok? ==> |r.value.0| == |r.value.1| == |bkgTimes| + |srcTimes|
  {
    var all := bkgTimes + srcTimes;
    var allPha := bkgPha + srcPha;
    var idx := Argsort(all);
    if |allPha| < |all| then Err(IndexError) else Ok((Apply(all, idx), Apply(allPha, idx)))
  }

  /** Merging paired event lists reorders the (time, channel) pairs by a
      permutation into non-decreasing time order: no event is lost, none is
      invented, and every channel stays with its time. */
  lemma CombinedSortsEvents(bkgTimes: seq<real>, srcTimes: seq<real>, bkgPha: seq<int>, srcPha: seq<int>)
    requires |bkgPha| == |bkgTimes| && |srcPha| == |srcTimes|
    ensures var r := Combined(bkgTimes, srcTimes, bkgPha, srcPha);
            var all := bkgTimes + srcTimes;
            var idx := Argsort(all);
            r.Ok? && IsPermutation(idx, |all|) &&
            NonDecreasing(r.value.0) &&
            Zip(r.value.0, r.value.1) == Apply(Zip(all, bkgPha + srcPha), idx)
  {
    var all := bkgTimes + srcTimes;
    var idx := Argsort(all);
    ArgsortSorts(all);
    var t := Apply(all, idx);
    forall a, b | 0 <= a < b < |t| ensures t[a] <= t[b] {
      assert t[a] == all[idx[a]] && t[b] == all[idx[b]];
    }
  }

  /** `GBMLightCurve._filter_deadtime` on values: the events the dead-time
      automaton records, in their order. The automaton reads the first
      event unconditionally, so an empty stream is an error. */
  function DeadTimeFiltered(times: seq<real>, pha: seq<int>): (r: Result<(seq<real>, seq<int>)>)
    requires |pha| == |times|
    ensures r.Err? <==> times == []
    ensures r.Err? ==> r.error == IndexError
  {
    if times == [] then Err(IndexError)
    else
      var m := KeptMask(times, pha);
      Ok((Select(times, m), Select(pha, m)))
  }

  /** The dead-time filter keeps a subsequence: the first event, never more
      events than it was given, time order, and channels paired with their
      own times. */
  lemma DeadTimeFilterKeepsPairs(times: seq<real>, pha: seq<int>)
    requires |pha| == |times| && times != []
    ensures var r := DeadTimeFiltered(times, pha).value;
            var m := KeptMask(times, pha);
            |r.0| == |r.1| <= |times| && r.0 != [] && r.0[0] == times[0] && r.1[0] == pha[0] &&
            Zip(r.0, r.1) == Select(Zip(times, pha), m) &&
            (NonDecreasing(times) ==> NonDecreasing(r.0))
  {
    var m := KeptMask(times, pha);
    SelectKeepsPairs(times, pha, m);
    var idx := SelectedIndices(m);
    assert m[0];
    assert 0 in idx;
    assert idx[0] == 0 by {
      forall k | 0 < k < |idx| ensures idx[k] > 0 {
        assert idx[0] < idx[k];
      }
    }
    if NonDecreasing(times) {
      SelectKeepsOrder(times, m);
    }
  }

  /** The events a light curve ends with: the merge, then the dead-time
      filter when the detector has one. */
  function Processed(gbm: bool, bkgTimes: seq<real>, srcTimes: seq<real>, bkgPha: seq<int>, srcPha: seq<int>)
    : (r: Result<(seq<real>, seq<int>)>)
    ensures r.Ok? ==> |r.value.0| == |r.value.1|
  {
    match Combined(bkgTimes, srcTimes, bkgPha, srcPha)
    case Err(e) => Err(e)
    case Ok(events) => if gbm then DeadTimeFiltered(events.0, events.1) else Ok(events)
  }

  /** Without a dead-time filter every sampled event survives; with it the
      run fails only when nothing was sampled, and keeps a time-ordered
      selection of the merged events. */
  lemma ProcessedEvents(gbm: bool, bkgTimes: seq<real>, srcTimes: seq<real>, bkgPha: seq<int>, srcPha: seq<int>)
    requires |bkgPha| == |bkgTimes| && |srcPha| == |srcTimes|
    ensures var r := Processed(gbm, bkgTimes, srcTimes, bkgPha, srcPha);
            var c := Combined(bkgTimes, srcTimes, bkgPha, srcPha).value;
            (r.Ok? <==> !gbm || |bkgTimes| + |srcTimes| > 0) &&
            (r.Ok? ==> NonDecreasing(r.value.0) && |r.value.0| <= |bkgTimes| + |srcTimes|) &&
            (r.Ok? && !gbm ==> r.value == c) &&
            (r.Ok? && gbm ==> Zip(r.value.0, r.value.1) == Select(Zip(c.0, c.1), KeptMask(c.0, c.1)))
  {
    CombinedSortsEvents(bkgTimes, srcTimes, bkgPha, srcPha);
    var c := Combined(bkgTimes, srcTimes, bkgPha, srcPha).value;
    if gbm && c.0 != [] {
      DeadTimeFilterKeepsPairs(c.0, c.1);
    }
  }

  /** `LightCurve(source, background, response, name, grb_name)`; a
      `GBMLightCurve` when `gbm` is set. The event lists the Python object
      creates lazily start out empty here. */
  class LightCurve {
    const source: Source
    const background: BackgroundSampler
    const response: Response
    const name: string
    const grbName: string
    const gbm: bool
    var photons: seq<real>
    var initialSourceTimes: seq<real>
    var initialSourceChannels: seq<int>
    var initialBkgTimes: seq<real>
    var initialBkgChannels: seq<int>
    var times: seq<real>
    var pha: seq<int>

    constructor (source: Source, background: BackgroundSampler, response: Response,
                 name: string, grbName: string, gbm: bool)
      ensures this.source == source && this.background == background && this.response == response
      ensures this.name == name && this.grbName == grbName && this.gbm == gbm
      ensures photons == initialSourceTimes == initialBkgTimes == times == []
      ensures initialSourceChannels == initialBkgChannels == pha == []
    {
      this.source := source;
      this.background := background;
      this.response := response;
      this.name := name;
      this.grbName := grbName;
      this.gbm := gbm;
      photons, initialSourceTimes, initialSourceChannels := [], [], [];
      initialBkgTimes, initialBkgChannels := [], [];
      times, pha := [], [];
    }

    /** What `_sample_source` produces: the source's arrival times, their
        observer-frame energies and the channels the response gives them. */
    function SourceOutcome(exps: seq<real>, tests: seq<real>, draws: seq<real>)
      : (r: Result<(seq<real>, seq<real>, seq<int>)>)
      reads this, source
      requires 1.0 + source.z != 0.0
      ensures r.Ok? ==> |r.value.1| == |r.value.2|
    {
      match source.TimesOutcome(exps, tests)
      case Err(e) => Err(e)
      case Ok(t) =>
        var ph := Propagate(source.sampleEnergy(t), source.z);
        match DigitizePrefix(ph, response.energyEdges, response.probabilities.cumulativeMatrix, draws, |ph|)
        case Err(e) => Err(e)
        case Ok(ch) => Ok((t, ph, ch))
    }

    /** `_sample_source`: the three source lists are stored together once
        every step has succeeded; a failing step changes nothing. */
    method SampleSource(exps: seq<real>, tests: seq<real>, draws: seq<real>) returns (r: Result<()>)
      requires 1.0 + source.z != 0.0
      modifies this
      ensures var out := old(SourceOutcome(exps, tests, draws));
              (r.Ok? <==> out.Ok?) && (r.Err? ==> r.error == out.error) &&
              (r.Ok? ==> (initialSourceTimes, photons, initialSourceChannels) == out.value)
      ensures r.Err? ==> photons == old(photons) && initialSourceTimes == old(initialSourceTimes) &&
                         initialSourceChannels == old(initialSourceChannels)
      ensures initialBkgTimes == old(initialBkgTimes) && initialBkgChannels == old(initialBkgChannels)
      ensures times == old(times) && pha == old(pha)
    {
      var t := source.SampleTimes(exps, tests);
      if t.Err? {
        return Err(t.error);
      }
      var ph := source.SamplePhotons(t.value);
      var ch := source.SampleChannel(ph, response, draws);
      if ch.Err? {
        return Err(ch.error);
      }
      photons, initialSourceTimes, initialSourceChannels := ph, t.value, ch.value;
      return Ok(());
    }

    /** `_sample_background`: the background times are stored before the
        channels are drawn, one channel per time, so a failing channel draw
        leaves the new times in place. */
    method SampleBackground(exps: seq<real>, tests: seq<real>, draws: seq<real>) returns (r: Result<()>)
      requires background.Valid()
      modifies this
      ensures var t := PoissonArrivals(background.tstart, background.tstop, ConstantRate(background.rate),
                                       background.rate, exps, tests);
              (t.Err? ==> r == Err(t.error) && initialBkgTimes == old(initialBkgTimes)) &&
              (t.Ok? ==> initialBkgTimes == t.value &&
                         (|draws| < |t.value| ==> r == Err(OutOfDraws)) &&
                         (|t.value| <= |draws| ==>
                            var ch := background.ChannelsOutcome(draws[..|t.value|]);
                            (r.Ok? <==> ch.Ok?) && (r.Err? ==> r.error == ch.error) &&
                            (r.Ok? ==> initialBkgChannels == ch.value)))
      ensures r.Ok? ==> |initialBkgChannels| == |initialBkgTimes|
      ensures r.Err? ==> initialBkgChannels == old(initialBkgChannels)
      ensures photons == old(photons) && initialSourceTimes == old(initialSourceTimes)
      ensures initialSourceChannels == old(initialSourceChannels)
      ensures times == old(times) && pha == old(pha)
    {
      var t := background.SampleTimes(exps, tests);
      if t.Err? {
        return Err(t.error);
      }
      initialBkgTimes := t.value;
      if |draws| < |t.value| {
        return Err(OutOfDraws);
      }
      var ch := background.SampleChannel(draws[..|t.value|]);
      if ch.Err? {
        return Err(ch.error);
      }
      initialBkgChannels := ch.value;
      return Ok(());
    }

    /** `_combine`: the merged, time-ordered event lists. When the channels
        cannot be read along the time order the times are already sorted
        and the channels are the plain concatenation. */
    method Combine() returns (r: Result<()>)
      modifies this
      ensures var c := old(Combined(initialBkgTimes, initialSourceTimes, initialBkgChannels, initialSourceChannels));
              (r.Ok? <==> c.Ok?) && (r.Err? ==> r.error == c.error) &&
              (r.Ok? ==> (times, pha) == c.value)
      ensures r.Err? ==> times == Apply(initialBkgTimes + initialSourceTimes, Argsort(initialBkgTimes + initialSourceTimes)) &&
                         pha == initialBkgChannels + initialSourceChannels
      ensures unchanged(this`photons, this`initialSourceTimes, this`initialSourceChannels)
      ensures unchanged(this`initialBkgTimes, this`initialBkgChannels)
    {
      var all := initialBkgTimes + initialSourceTimes;
      var allPha := initialBkgChannels + initialSourceChannels;
      var idx := Argsort(all);
      times := Apply(all, idx);
      if |allPha| < |all| {
        pha := allPha;
        return Err(IndexError);
      }
      pha := Apply(allPha, idx);
      return Ok(());
    }

    /** `_filter_deadtime`: nothing for a plain light curve; for GBM the
        events the dead-time automaton records. */
    method FilterDeadTime() returns (r: Result<()>)
      requires |pha| == |times|
      modifies this
      ensures !gbm ==> r.Ok? && times == old(times) && pha == old(pha)
      ensures gbm ==> var f := DeadTimeFiltered(old(times), old(pha));
                      (r.Ok? <==> f.Ok?) && (r.Err? ==> r.error == f.error && times == old(times) && pha == old(pha)) &&
                      (r.Ok? ==> (times, pha) == f.value)
      ensures unchanged(this`photons, this`initialSourceTimes, this`initialSourceChannels)
      ensures unchanged(this`initialBkgTimes, this`initialBkgChannels)
    {
      if !gbm {
        return Ok(());
      }
      if |times| == 0 {
        return Err(IndexError);
      }
      var filteredTime, filteredPha, selection := GbmDeadTime(times, pha);
      SelectAgrees(filteredTime, times, selection);
      SelectAgrees(filteredPha, pha, selection);
      times := Select(filteredTime, selection);
      pha := Select(filteredPha, selection);
      return Ok(());
    }

    /** `process`: sample the source, sample the background, merge, filter;
        the first failing step ends the run. On success the final events
        are those `Processed` gives for the freshly sampled lists. */
    method Process(srcExps: seq<real>, srcTests: seq<real>, srcDraws: seq<real>,
                   bkgExps: seq<real>, bkgTests: seq<real>, bkgDraws: seq<real>) returns (r: Result<()>)
      requires 1.0 + source.z != 0.0 && background.Valid()
      modifies this
      ensures r.Ok? ==> old(SourceOutcome(srcExps, srcTests, srcDraws)) ==
                          Ok((initialSourceTimes, photons, initialSourceChannels))
      ensures r.Ok? ==> |initialBkgChannels| == |initialBkgTimes| &&
                        PoissonArrivals(background.tstart, background.tstop, ConstantRate(background.rate),
                                        background.rate, bkgExps, bkgTests) == Ok(initialBkgTimes)
      ensures r.Ok? ==> Processed(gbm, initialBkgTimes, initialSourceTimes, initialBkgChannels, initialSourceChannels)
                        == Ok((times, pha))
    {
      r := SampleSource(srcExps, srcTests, srcDraws);
      if r.Err? {
        return;
      }
      r := SampleBackground(bkgExps, bkgTests, bkgDraws);
      if r.Err? {
        return;
      }
      r := Combine();
      if r.Err? {
        return;
      }
      r := FilterDeadTime();
    }
  }
}
