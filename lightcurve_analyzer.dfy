/** The analyser base of cosmogrb/lightcurve/lightcurve_analyzer.py. It
    refuses a light curve made for another instrument, starts undetected,
    and runs its dead-time and detection hooks only when the light curve
    holds source counts. The hooks and `dead_time_of_interval` belong to
    subclasses, so their outcomes are inputs here. `exposure_of_interval`
    as written calls a method that no class defines;
    `ExposureOfIntervalIntended` is the exposure with the declared dead-time
    method. */
module LightCurveAnalyzers {
  import opened Common
  import opened LightCurveStorages

  /** A `LightCurveAnalyzer` after its constructor. `deadTimeOfInterval`
      is the subclass's `dead_time_of_interval(tmax, tmin)`. */
  class LightCurveAnalyzer {
    const lightcurve: LightCurveStorage
    const instrument: string
    const deadTimeOfInterval: (real, real) -> real
    /** Whether the constructor ran the dead-time and detection hooks. */
    const hooksRan: bool
    var isDetected: bool

    constructor (lightcurve: LightCurveStorage, instrument: string, deadTimeOfInterval: (real, real) -> real,
                 hooksRan: bool, isDetected: bool)
      ensures this.lightcurve == lightcurve && this.instrument == instrument
      ensures this.deadTimeOfInterval == deadTimeOfInterval
      ensures this.hooksRan == hooksRan && this.isDetected == isDetected
    {
      this.lightcurve := lightcurve;
      this.instrument := instrument;
      this.deadTimeOfInterval := deadTimeOfInterval;
      this.hooksRan := hooksRan;
      this.isDetected := isDetected;
    }

    /** `exposure_of_interval` as written: it calls
        `dead_time_per_interval`, which neither this class nor its
        subclass defines, so every call raises AttributeError. */
    function ExposureOfInterval(tmin: real, tmax: real): (r: Result<real>)
      ensures r.Err? && r.error == AttributeError
    {
      Err(AttributeError)
    }

    /** The exposure the method means: the interval's length less the dead
        time the declared `dead_time_of_interval(tmax, tmin)` reports for
        it. */
    function ExposureOfIntervalIntended(tmin: real, tmax: real): (r: real)
      reads this
    {
      (tmax - tmin) - deadTimeOfInterval(tmax, tmin)
    }
  }

  /** Exposure and dead time make up the interval, and when the dead time
      lies between zero and the interval's length, so does the exposure. */
  lemma ExposurePlusDeadTime(a: LightCurveAnalyzer, tmin: real, tmax: real)
    ensures a.ExposureOfIntervalIntended(tmin, tmax) + a.deadTimeOfInterval(tmax, tmin) == tmax - tmin
    ensures 0.0 <= a.deadTimeOfInterval(tmax, tmin) <= tmax - tmin ==>
              0.0 <= a.ExposureOfIntervalIntended(tmin, tmax) <= tmax - tmin
    ensures a.deadTimeOfInterval(tmax, tmin) == 0.0 ==> a.ExposureOfIntervalIntended(tmin, tmax) == tmax - tmin
  {
  }

  /** Every call as written fails, on intervals where the intended
      exposure is well defined. */
  lemma ExposureOfIntervalAlwaysFails(a: LightCurveAnalyzer, tmin: real, tmax: real)
    ensures a.ExposureOfInterval(tmin, tmax) == Err(AttributeError)
    ensures a.ExposureOfInterval(tmin, tmax) != Ok(a.ExposureOfIntervalIntended(tmin, tmax))
  {
  }

  /** `LightCurveAnalyzer(lightcurve, instrument)`. The light curve's
      instrument and source-count total are passed in beside it, and
      `hookVerdict` is what the subclass's `_compute_detection` decides.
      AssertionError when the instruments differ; otherwise the hooks run
      exactly when there are source counts, and a light curve without them
      stays undetected. */
  method OpenAnalyzer(lightcurve: LightCurveStorage, lightcurveInstrument: string, nCountsSource: int,
                      instrument: string, deadTimeOfInterval: (real, real) -> real, hookVerdict: bool)
      returns (r: Result<LightCurveAnalyzer>)
    ensures r.Err? <==> lightcurveInstrument != instrument
    ensures r.Err? ==> r.error == AssertionError
    ensures r.Ok? ==>
              fresh(r.value) && r.value.lightcurve == lightcurve && r.value.instrument == instrument &&
              r.value.deadTimeOfInterval == deadTimeOfInterval &&
              (r.value.hooksRan <==> nCountsSource > 0) &&
              r.value.isDetected == (nCountsSource > 0 && hookVerdict)
  {
    if lightcurveInstrument != instrument {
      return Err(AssertionError);
    }
    var detected := false;
    var ran := false;
    if nCountsSource > 0 {
      ran := true;
      detected := hookVerdict;
    }
    var a := new LightCurveAnalyzer(lightcurve, instrument, deadTimeOfInterval, ran, detected);
    return Ok(a);
  }
}
