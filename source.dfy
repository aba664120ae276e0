/** The source sampler of cosmogrb/sampler/source.py: it bounds the
    energy-integrated light curve on a grid of times, hands that bound to
    the thinning loop, propagates sampled photon energies to the observer
    frame and delegates channel assignment to a response. The source
    function is represented by its energy-integrated flux and its response;
    its energy sampler is abstract, so its output is an input here. */
module Sources {
  import opened Common
  import opened Reductions
  import opened Samplers
  import opened Responses

  /** Number of times on which the energy-integrated flux is evaluated. */
  const NumGridPoints: nat := 50

  /** The 50 evenly spaced times from `tstart` to `tstop`. */
  function TimeGrid(tstart: real, tstop: real): (g: seq<real>)
    ensures |g| == NumGridPoints && g[0] == tstart && g[NumGridPoints - 1] == tstop
  {
    Linspace(tstart, tstop, NumGridPoints)
  }

  /** `_get_energy_integrated_max`: the largest energy-integrated flux on
      the time grid. */
  function EnergyIntegratedMax(tstart: real, tstop: real, flux: real -> real): real
  {
    var g := TimeGrid(tstart, tstop);
    Max(seq(NumGridPoints, k requires 0 <= k < NumGridPoints => flux(g[k])))
  }

  /** The bound is at least the flux at every grid time, and is the flux at
      one of them. */
  lemma EnergyIntegratedMaxBounds(tstart: real, tstop: real, flux: real -> real)
    ensures var g := TimeGrid(tstart, tstop);
            var m := EnergyIntegratedMax(tstart, tstop, flux);
            (forall k :: 0 <= k < NumGridPoints ==> flux(g[k]) <= m) &&
            exists k :: 0 <= k < NumGridPoints && m == flux(g[k])
  {
    var g := TimeGrid(tstart, tstop);
    var values := seq(NumGridPoints, k requires 0 <= k < NumGridPoints => flux(g[k]));
    var m := Max(values);
    assert forall k :: 0 <= k < NumGridPoints ==> values[k] == flux(g[k]);
    assert values[ArgMax(values)] == m;
  }

  /** `_propagate_photons`: every energy divided by (1 + z). */
  function Propagate(photons: seq<real>, z: real): (r: seq<real>)
    requires 1.0 + z != 0.0
    ensures |r| == |photons|
  {
    seq(|photons|, k requires 0 <= k < |photons| => photons[k] / (1.0 + z))
  }

  /** Redshifting undoes itself: multiplying back by (1 + z) gives the
      source-frame energies, and a positive redshift lowers every positive
      energy. */
  lemma PropagateScales(photons: seq<real>, z: real)
    requires 1.0 + z != 0.0
    ensures forall k :: 0 <= k < |photons| ==> Propagate(photons, z)[k] * (1.0 + z) == photons[k]
    ensures z > 0.0 ==> forall k :: 0 <= k < |photons| && photons[k] > 0.0 ==> Propagate(photons, z)[k] < photons[k]
  {
    var r := Propagate(photons, z);
    forall k | 0 <= k < |photons| && z > 0.0 && photons[k] > 0.0
      ensures r[k] < photons[k]
    {
      assert r[k] * (1.0 + z) == photons[k];
      assert r[k] * z > 0.0;
    }
  }

  /** `Source(tstart, tstop, source_function, z)`. `flux` is the source
      function's energy-integrated evolution, `sampleEnergy` its energy
      sampler (with its random draws folded in) and `response` its
      response; `fmax` is `None` while it has never been computed. */
  class Source {
    const tstart: real
    const tstop: real
    const z: real
    const flux: real -> real
    const sampleEnergy: seq<real> -> seq<real>
    var response: Option<Response>
    var fmax: Option<real>

    /** What `sample_times` returns for the given draws. */
    function TimesOutcome(exps: seq<real>, tests: seq<real>): Result<seq<real>>
      reads this
    {
      if fmax.None? then Err(AttributeError) else PoissonArrivals(tstart, tstop, flux, fmax.value, exps, tests)
    }

    /** The intended constructor: the bound is computed only when the
        source function already has a response. As written the hand-off to
        `set_source` reads a `z` attribute the source does not have, so
        construction fails with AttributeError. */
    constructor (tstart: real, tstop: real, flux: real -> real, sampleEnergy: seq<real> -> seq<real>,
                 z: real, response: Option<Response>)
      ensures this.tstart == tstart && this.tstop == tstop && this.flux == flux && this.z == z
      ensures this.sampleEnergy == sampleEnergy && this.response == response
      ensures fmax == if response.Some? then Some(EnergyIntegratedMax(tstart, tstop, flux)) else None
    {
      this.tstart := tstart;
      this.tstop := tstop;
      this.flux := flux;
      this.sampleEnergy := sampleEnergy;
      this.z := z;
      this.response := response;
      if response.Some? {
        fmax := Some(EnergyIntegratedMax(tstart, tstop, flux));
      } else {
        fmax := None;
      }
    }

    /** `set_response`: installs the response and recomputes the bound. */
    method SetResponse(resp: Response)
      modifies this
      ensures response == Some(resp)
      ensures fmax == Some(EnergyIntegratedMax(tstart, tstop, flux))
    {
      response := Some(resp);
      fmax := Some(EnergyIntegratedMax(tstart, tstop, flux));
    }

    /** `sample_times`: the thinning loop between `tstart` and `tstop` under
        the stored bound; reading a bound that was never computed raises
        AttributeError. */
    method SampleTimes(exps: seq<real>, tests: seq<real>) returns (r: Result<seq<real>>)
      ensures fmax.None? ==> r == Err(AttributeError)
      ensures fmax.Some? ==> r == PoissonArrivals(tstart, tstop, flux, fmax.value, exps, tests)
      ensures r == TimesOutcome(exps, tests)
    {
      if fmax.None? {
        return Err(AttributeError);
      }
      r := SourcePoissonGenerator(tstart, tstop, flux, fmax.value, exps, tests);
    }

    /** `sample_photons(times)`: the source function's energies for the
        times, moved to the observer frame. */
    method SamplePhotons(times: seq<real>) returns (photons: seq<real>)
      requires 1.0 + z != 0.0
      ensures photons == Propagate(sampleEnergy(times), z)
    {
      var sourceFrame := sampleEnergy(times);
      photons := seq(|sourceFrame|, k requires 0 <= k < |sourceFrame| => sourceFrame[k] / (1.0 + z));
    }

    /** `sample_channel(photons, response)`: the response's digitiser,
        unchanged. */
    method SampleChannel(photons: seq<real>, resp: Response, draws: seq<real>) returns (r: Result<seq<nat>>)
      ensures r == DigitizePrefix(photons, resp.energyEdges, resp.probabilities.cumulativeMatrix, draws, |photons|)
    {
      r := DigitizeWith(resp, photons, draws);
    }
  }
}
