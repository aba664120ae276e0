/** The older light curve of cosmogrb/lightcurve.py. It differs from the
    package version in one step: its source's `sample_channel` returns a
    detection flag per photon next to the channels, and only flagged source
    events enter the light curve. The older source object is not part of
    this model, so what it returns for one run (times, photon energies,
    channels and flags) is passed in. Merging and the GBM dead-time filter
    are the same operations as in the package version. */
module LegacyLightCurves {
  import opened Common
  import opened Sorting
  import opened Selection
  import opened DeadTime
  import opened Samplers
  import opened Background
  import opened LightCurves

  /** The source events `_sample_source` keeps: times and channels filtered
      with the same flags. numpy refuses a flag array whose length differs
      from the array it filters. */
  function DetectedSourceEvents(times: seq<real>, pha: seq<int>, selection: seq<bool>)
    : (r: Result<(seq<real>, seq<int>)>)
    ensures r.Err? <==> |times| != |selection| || |pha| != |selection|
    ensures r.Err? ==> r.error == IndexError
    ensures r.Ok? ==> |r.value.0| == |r.value.1| <= |selection|
  {
    if |times| != |selection| || |pha| != |selection| then Err(IndexError)
    else
      SelectKeepsPairs(times, pha, selection);
      Ok((Select(times, selection), Select(pha, selection)))
  }

  /** A flagged photon is kept with its own channel, in arrival order, and
      an unflagged one is dropped; with every flag set nothing is lost. */
  lemma DetectedSourceEventsArePaired(times: seq<real>, pha: seq<int>, selection: seq<bool>)
    requires |times| == |selection| && |pha| == |selection|
    ensures var r := DetectedSourceEvents(times, pha, selection).value;
            Zip(r.0, r.1) == Select(Zip(times, pha), selection) &&
            (NonDecreasing(times) ==> NonDecreasing(r.0)) &&
            ((forall i :: 0 <= i < |selection| ==> selection[i]) ==> r == (times, pha))
  {
    SelectKeepsPairs(times, pha, selection);
    if NonDecreasing(times) {
      SelectKeepsOrder(times, selection);
    }
    if forall i :: 0 <= i < |selection| ==> selection[i] {
      SelectAll(times, selection);
      SelectAll(pha, selection);
    }
  }

  /** `LightCurve` of cosmogrb/lightcurve.py, and its `GBMLightCurve` when
      `gbm` is set. */
  class LegacyLightCurve {
    const background: BackgroundSampler
    const name: string
    const grbName: string
    const gbm: bool
    var photons: seq<real>
    var initialSourceTimes: seq<real>
    var initialSourceChannels: seq<int>
    var initialBkgTimes: seq<real>
    var initialBkgChannels: seq<int>
    var times: seq<real>
    var pha: seq<int>

    constructor (background: BackgroundSampler, name: string, grbName: string, gbm: bool)
      ensures this.background == background && this.name == name && this.grbName == grbName && this.gbm == gbm
      ensures photons == initialSourceTimes == initialBkgTimes == times == []
      ensures initialSourceChannels == initialBkgChannels == pha == []
    {
      this.background := background;
      this.name := name;
      this.grbName := grbName;
      this.gbm := gbm;
      photons, initialSourceTimes, initialSourceChannels := [], [], [];
      initialBkgTimes, initialBkgChannels := [], [];
      times, pha := [], [];
    }

    /** `_sample_source`, given what the source sampled: the photons are
        stored first, then the flagged times, then the flagged channels; a
        flag array of the wrong length stops it at that point. */
    method SampleSource(sampledTimes: seq<real>, sampledPhotons: seq<real>, sampledPha: seq<int>,
                        selection: seq<bool>) returns (r: Result<()>)
      modifies this
      ensures photons == sampledPhotons
      ensures var d := DetectedSourceEvents(sampledTimes, sampledPha, selection);
              (r.Ok? <==> d.Ok?) && (r.Err? ==> r.error == IndexError) &&
              (r.Ok? ==> (initialSourceTimes, initialSourceChannels) == d.value)
      ensures |sampledTimes| != |selection| ==> initialSourceTimes == old(initialSourceTimes)
      ensures |sampledTimes| == |selection| ==> initialSourceTimes == Select(sampledTimes, selection)
      ensures r.Err? ==> initialSourceChannels == old(initialSourceChannels)
      ensures unchanged(this`initialBkgTimes, this`initialBkgChannels, this`times, this`pha)
    {
      photons := sampledPhotons;
      if |sampledTimes| != |selection| {
        return Err(IndexError);
      }
      initialSourceTimes := Select(sampledTimes, selection);
      if |sampledPha| != |selection| {
        return Err(IndexError);
      }
      initialSourceChannels := Select(sampledPha, selection);
      return Ok(());
    }

    /** `_sample_background`: as in the package version, times first and
        then one channel per time. */
    method SampleBackground(exps: seq<real>, tests: seq<real>, draws: seq<real>) returns (r: Result<()>)
      requires background.Valid()
      modifies this
      ensures var t := PoissonArrivals(background.tstart, background.tstop, ConstantRate(background.rate),
                                       background.rate, exps, tests);
              (t.Err? ==> r == Err(t.error) && initialBkgTimes == old(initialBkgTimes)) &&
              (t.Ok? ==> initialBkgTimes == t.value &&
                         (|draws| < |t.value| ==> r == Err(OutOfDraws)) &&
                         (|t.value| <= |draws| ==>
                            var ch := background.ChannelsOutcome(draws[..|t.value|]);
                            (r.Ok? <==> ch.Ok?) && (r.Err? ==> r.error == ch.error) &&
                            (r.Ok? ==> initialBkgChannels == ch.value)))
      ensures r.Ok? ==> |initialBkgChannels| == |initialBkgTimes|
      ensures r.Err? ==> initialBkgChannels == old(initialBkgChannels)
      ensures unchanged(this`photons, this`initialSourceTimes, this`initialSourceChannels, this`times, this`pha)
    {
      var t := background.SampleTimes(exps, tests);
      if t.Err? {
        return Err(t.error);
      }
      initialBkgTimes := t.value;
      if |draws| < |t.value| {
        return Err(OutOfDraws);
      }
      var ch := background.SampleChannel(draws[..|t.value|]);
      if ch.Err? {
        return Err(ch.error);
      }
      initialBkgChannels := ch.value;
      return Ok(());
    }

    /** `_combine`: background then source events, in time order. */
    method Combine() returns (r: Result<()>)
      modifies this
      ensures var c := old(Combined(initialBkgTimes, initialSourceTimes, initialBkgChannels, initialSourceChannels));
              (r.Ok? <==> c.Ok?) && (r.Err? ==> r.error == c.error) &&
              (r.Ok? ==> (times, pha) == c.value)
      ensures r.Err? ==> times == Apply(initialBkgTimes + initialSourceTimes, Argsort(initialBkgTimes + initialSourceTimes)) &&
                         pha == initialBkgChannels + initialSourceChannels
      ensures unchanged(this`photons, this`initialSourceTimes, this`initialSourceChannels)
      ensures unchanged(this`initialBkgTimes, this`initialBkgChannels)
    {
      var all := initialBkgTimes + initialSourceTimes;
      var allPha := initialBkgChannels + initialSourceChannels;
      var idx := Argsort(all);
      times := Apply(all, idx);
      if |allPha| < |all| {
        pha := allPha;
        return Err(IndexError);
      }
      pha := Apply(allPha, idx);
      return Ok(());
    }

    /** `_filter_deadtime`: a no-op, or for GBM the events the dead-time
        automaton records. */
    method FilterDeadTime() returns (r: Result<()>)
      requires |pha| == |times|
      modifies this
      ensures !gbm ==> r.Ok? && times == old(times) && pha == old(pha)
      ensures gbm ==> var f := DeadTimeFiltered(old(times), old(pha));
                      (r.Ok? <==> f.Ok?) && (r.Err? ==> r.error == f.error && times == old(times) && pha == old(pha)) &&
                      (r.Ok? ==> (times, pha) == f.value)
      ensures unchanged(this`photons, this`initialSourceTimes, this`initialSourceChannels)
      ensures unchanged(this`initialBkgTimes, this`initialBkgChannels)
    {
      if !gbm {
        return Ok(());
      }
      if |times| == 0 {
        return Err(IndexError);
      }
      var filteredTime, filteredPha, selection := GbmDeadTime(times, pha);
      SelectAgrees(filteredTime, times, selection);
      SelectAgrees(filteredPha, pha, selection);
      times := Select(filteredTime, selection);
      pha := Select(filteredPha, selection);
      return Ok(());
    }

    /** `process`: sample the source, sample the background, merge, filter.
        On success only flagged source events reach the final lists, merged
        with the background and filtered as in the package version. */
    method Process(sampledTimes: seq<real>, sampledPhotons: seq<real>, sampledPha: seq<int>, selection: seq<bool>,
                   bkgExps: seq<real>, bkgTests: seq<real>, bkgDraws: seq<real>) returns (r: Result<()>)
      requires background.Valid()
      modifies this
      ensures r.Ok? ==> DetectedSourceEvents(sampledTimes, sampledPha, selection) ==
                          Ok((initialSourceTimes, initialSourceChannels))
      ensures r.Ok? ==> |initialBkgChannels| == |initialBkgTimes| &&
                        PoissonArrivals(background.tstart, background.tstop, ConstantRate(background.rate),
                                        background.rate, bkgExps, bkgTests) == Ok(initialBkgTimes)
      ensures r.Ok? ==> Processed(gbm, initialBkgTimes, initialSourceTimes, initialBkgChannels, initialSourceChannels)
                        == Ok((times, pha))
    {
      r := SampleSource(sampledTimes, sampledPhotons, sampledPha, selection);
      if r.Err? {
        return;
      }
      r := SampleBackground(bkgExps, bkgTests, bkgDraws);
      if r.Err? {
        return;
      }
      r := Combine();
      if r.Err? {
        return;
      }
      r := FilterDeadTime();
    }
  }
}
