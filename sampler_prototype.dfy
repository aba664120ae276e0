/** The sampling loops of cosmogrb/sampler/sampler_prototype.py: the
    non-homogeneous Poisson generator that thins candidate arrival times
    against a flux, and the two rejection samplers that draw one photon
    energy per arrival time. The flux is an uninterpreted function; the
    random numbers are passed in as sequences of draws, and a loop that needs
    a draw past the end of its sequence stops with OutOfDraws (the Python
    loops would keep drawing). */
module Samplers {
  import opened Common
  import opened Reductions

  // ---------------------------------------------------------------------
  // Poisson thinning

  /** The time step `-(1.0 / fmax) * log(u)`, with `e = -log(u)` the
      exponential draw. */
  function Step(fmax: real, e: real): real
    requires fmax != 0.0
  {
    (1.0 / fmax) * e
  }

  /** `p` followed by the arrivals of `r`; an error stays an error. */
  function AppendResult(p: seq<real>, r: Result<seq<real>>): (q: Result<seq<real>>)
    ensures q.Ok? <==> r.Ok?
    ensures r.Err? ==> q == r
    ensures r.Ok? ==> q.value == p + r.value
  {
    match r
    case Ok(s) => Ok(p + s)
    case Err(e) => Err(e)
  }

  /** The arrivals recorded from iteration i on, the clock standing at
      `time`: each iteration advances the clock by one step; a clock past
      `tstop` ends the run, otherwise the candidate is kept iff its test draw
      is at most `flux(candidate) / fmax`. */
  function Thinned(time: real, tstop: real, flux: real -> real, fmax: real,
                   exps: seq<real>, tests: seq<real>, i: nat): Result<seq<real>>
    requires fmax != 0.0
    decreases |exps| - i
  {
    if i >= |exps| then Err(OutOfDraws)
    else
      var t := time + Step(fmax, exps[i]);
      if t > tstop then Ok([])
      else if i >= |tests| then Err(OutOfDraws)
      else
        var rest := Thinned(t, tstop, flux, fmax, exps, tests, i + 1);
        if tests[i] <= flux(t) / fmax then AppendResult([t], rest) else rest
  }

  /** What `source_poisson_generator(tstart, tstop, function, fmax)`
      returns: `tstart` followed by the thinned arrivals. A zero `fmax` makes
      the first `1.0 / fmax` raise. */
  function PoissonArrivals(tstart: real, tstop: real, flux: real -> real, fmax: real,
                           exps: seq<real>, tests: seq<real>): Result<seq<real>>
  {
    if fmax == 0.0 then Err(ZeroDivisionError)
    else AppendResult([tstart], Thinned(tstart, tstop, flux, fmax, exps, tests, 0))
  }

  /** `source_poisson_generator`, with the exponential draws `exps` and the
      uniform test draws `tests` passed in. */
  method SourcePoissonGenerator(tstart: real, tstop: real, flux: real -> real, fmax: real,
                                exps: seq<real>, tests: seq<real>)
      returns (r: Result<seq<real>>)
    ensures r == PoissonArrivals(tstart, tstop, flux, fmax, exps, tests)
  {
    if fmax == 0.0 {
      return Err(ZeroDivisionError);
    }
    var time := tstart;
    var arrivals := [tstart];
    var i := 0;
    while true
      invariant PoissonArrivals(tstart, tstop, flux, fmax, exps, tests)
                == AppendResult(arrivals, Thinned(time, tstop, flux, fmax, exps, tests, i))
      decreases |exps| - i
    {
      if i >= |exps| {
        return Err(OutOfDraws);
      }
      ThinnedStep(arrivals, time, tstop, flux, fmax, exps, tests, i);
      time := time + Step(fmax, exps[i]);
      if time > tstop {
        break;
      }
      if i >= |tests| {
        return Err(OutOfDraws);
      }
      var pTest := flux(time) / fmax;
      if tests[i] <= pTest {
        arrivals := arrivals + [time];
      }
      i := i + 1;
    }
    return Ok(arrivals);
  }

  /** One iteration of the thinning loop, with the arrivals `p` recorded so
      far: a clock past `tstop` ends the run with `p`, a missing test draw
      is OutOfDraws, otherwise a passing candidate joins `p`. */
  lemma ThinnedStep(p: seq<real>, time: real, tstop: real, flux: real -> real, fmax: real,
                    exps: seq<real>, tests: seq<real>, i: nat)
    requires fmax != 0.0 && i < |exps|
    ensures var t := time + Step(fmax, exps[i]);
            var r := AppendResult(p, Thinned(time, tstop, flux, fmax, exps, tests, i));
            (t > tstop ==> r == Ok(p)) &&
            (t <= tstop && |tests| <= i ==> r == Err(OutOfDraws)) &&
            (t <= tstop && i < |tests| ==>
               r == AppendResult(if tests[i] <= flux(t) / fmax then p + [t] else p,
                                 Thinned(t, tstop, flux, fmax, exps, tests, i + 1)))
  {
    var t := time + Step(fmax, exps[i]);
    if t > tstop {
      assert p + [] == p;
    } else if i < |tests| && tests[i] <= flux(t) / fmax {
      AppendAssoc(p, t, Thinned(t, tstop, flux, fmax, exps, tests, i + 1));
    }
  }

  lemma AppendAssoc(p: seq<real>, t: real, r: Result<seq<real>>)
    ensures AppendResult(p, AppendResult([t], r)) == AppendResult(p + [t], r)
  {
    if r.Ok? {
      assert p + ([t] + r.value) == p + [t] + r.value;
    }
  }

  /** The candidate times before the clock first passes `tstop`. */
  function Candidates(time: real, tstop: real, fmax: real, exps: seq<real>, i: nat): seq<real>
    requires fmax != 0.0
    decreases |exps| - i
  {
    if i >= |exps| then []
    else
      var t := time + Step(fmax, exps[i]);
      if t > tstop then [] else [t] + Candidates(t, tstop, fmax, exps, i + 1)
  }

  /** Candidate k is kept when its test draw passes. */
  function KeptCandidates(c: seq<real>, tests: seq<real>, flux: real -> real, fmax: real): seq<real>
    requires fmax != 0.0 && |c| <= |tests|
  {
    if c == [] then []
    else (if tests[0] <= flux(c[0]) / fmax then [c[0]] else []) + KeptCandidates(c[1..], tests[1..], flux, fmax)
  }

  /** Thinning splits into two steps: the candidates up to `tstop`, then the
      subsequence of those whose test passes. */
  lemma {:induction false} ThinnedIsKeptCandidates(time: real, tstop: real, flux: real -> real, fmax: real,
                                                  exps: seq<real>, tests: seq<real>, i: nat)
    requires fmax != 0.0
    requires Thinned(time, tstop, flux, fmax, exps, tests, i).Ok?
    ensures var c := Candidates(time, tstop, fmax, exps, i);
            c == [] ==> Thinned(time, tstop, flux, fmax, exps, tests, i).value == []
    ensures var c := Candidates(time, tstop, fmax, exps, i);
            c != [] ==> i + |c| <= |tests| &&
                        Thinned(time, tstop, flux, fmax, exps, tests, i).value == KeptCandidates(c, tests[i..], flux, fmax)
    decreases |exps| - i
  {
    var t := time + Step(fmax, exps[i]);
    if t <= tstop {
      ThinnedIsKeptCandidates(t, tstop, flux, fmax, exps, tests, i + 1);
      if Candidates(t, tstop, fmax, exps, i + 1) != [] {
        assert tests[i..][1..] == tests[i + 1..];
      }
    }
  }

  /** Every recorded arrival lies at or before `tstop`, and with positive
      steps the arrivals are strictly increasing and lie after `time`. */
  lemma {:induction false} ThinnedBounds(time: real, tstop: real, flux: real -> real, fmax: real,
                                        exps: seq<real>, tests: seq<real>, i: nat)
    requires fmax != 0.0
    requires Thinned(time, tstop, flux, fmax, exps, tests, i).Ok?
    ensures var s := Thinned(time, tstop, flux, fmax, exps, tests, i).value;
            forall k :: 0 <= k < |s| ==> s[k] <= tstop
    ensures var s := Thinned(time, tstop, flux, fmax, exps, tests, i).value;
            fmax > 0.0 && (forall k :: i <= k < |exps| ==> exps[k] > 0.0) ==>
              (forall k :: 0 <= k < |s| ==> time < s[k]) &&
              (forall a, b :: 0 <= a < b < |s| ==> s[a] < s[b])
    decreases |exps| - i
  {
    var t := time + Step(fmax, exps[i]);
    if t <= tstop {
      ThinnedBounds(t, tstop, flux, fmax, exps, tests, i + 1);
    }
  }

  /** The generator's output: `tstart` first, every later arrival at or
      before `tstop`, and strictly increasing when `fmax` and the exponential
      draws are positive. */
  lemma PoissonArrivalsShape(tstart: real, tstop: real, flux: real -> real, fmax: real,
                             exps: seq<real>, tests: seq<real>)
    requires PoissonArrivals(tstart, tstop, flux, fmax, exps, tests).Ok?
    ensures var s := PoissonArrivals(tstart, tstop, flux, fmax, exps, tests).value;
            |s| >= 1 && s[0] == tstart && forall k :: 1 <= k < |s| ==> s[k] <= tstop
    ensures var s := PoissonArrivals(tstart, tstop, flux, fmax, exps, tests).value;
            fmax > 0.0 && (forall k :: 0 <= k < |exps| ==> exps[k] > 0.0) ==>
              forall a, b :: 0 <= a < b < |s| ==> s[a] < s[b]
  {
    ThinnedBounds(tstart, tstop, flux, fmax, exps, tests, 0);
    var s := PoissonArrivals(tstart, tstop, flux, fmax, exps, tests).value;
    var rest := Thinned(tstart, tstop, flux, fmax, exps, tests, 0).value;
    assert s == [tstart] + rest;
    assert forall k :: 1 <= k < |s| ==> s[k] == rest[k - 1];
  }

  /** When no test can fail, every candidate is kept. */
  lemma {:induction false} AllPassKeepsAll(c: seq<real>, tests: seq<real>, flux: real -> real, fmax: real)
    requires fmax != 0.0 && |c| <= |tests|
    requires forall k :: 0 <= k < |c| ==> tests[k] <= flux(c[k]) / fmax
    ensures KeptCandidates(c, tests, flux, fmax) == c
  {
    if c != [] {
      AllPassKeepsAll(c[1..], tests[1..], flux, fmax);
    }
  }

  // ---------------------------------------------------------------------
  // Rejection sampling

  /** The first accepted proposal from draw j on, and the position of the
      next unused draw. Draw d proposes `propose(d)`, which is accepted when
      `envelope(x, d) <= target(x)`. */
  function FirstAccepted(propose: ((real, real)) -> real, envelope: (real, (real, real)) -> real,
                         target: real -> real, draws: seq<(real, real)>, j: nat): Result<(real, nat)>
    decreases |draws| - j
  {
    if j >= |draws| then Err(OutOfDraws)
    else
      var x := propose(draws[j]);
      if envelope(x, draws[j]) <= target(x) then Ok((x, j + 1))
      else FirstAccepted(propose, envelope, target, draws, j + 1)
  }

  /** The accepted value comes from the last draw used, passes its test, and
      every draw before it from j on was rejected. */
  lemma {:induction false} FirstAcceptedAccepts(propose: ((real, real)) -> real, envelope: (real, (real, real)) -> real,
                                               target: real -> real, draws: seq<(real, real)>, j: nat)
    requires FirstAccepted(propose, envelope, target, draws, j).Ok?
    ensures var (x, next) := FirstAccepted(propose, envelope, target, draws, j).value;
            j < next <= |draws| && x == propose(draws[next - 1]) &&
            envelope(x, draws[next - 1]) <= target(x) &&
            forall k :: j <= k < next - 1 ==> target(propose(draws[k])) < envelope(propose(draws[k]), draws[k])
    decreases |draws| - j
  {
    var x := propose(draws[j]);
    if !(envelope(x, draws[j]) <= target(x)) {
      FirstAcceptedAccepts(propose, envelope, target, draws, j + 1);
    }
  }

  /** The `while True` loop both rejection samplers run for one time:
      draw, propose, test, until a proposal is accepted. */
  method DrawUntilAccepted(propose: ((real, real)) -> real, envelope: (real, (real, real)) -> real,
                           target: real -> real, draws: seq<(real, real)>, j0: nat)
      returns (r: Result<(real, nat)>)
    ensures r == FirstAccepted(propose, envelope, target, draws, j0)
  {
    var j := j0;
    while true
      invariant j0 <= j
      invariant FirstAccepted(propose, envelope, target, draws, j0) == FirstAccepted(propose, envelope, target, draws, j)
      decreases |draws| - j
    {
      if j >= |draws| {
        return Err(OutOfDraws);
      }
      var x := propose(draws[j]);
      var y := envelope(x, draws[j]);
      j := j + 1;
      if y <= target(x) {
        return Ok((x, j));
      }
    }
  }

  /** `np.random.uniform(lo, hi)` from a uniform draw `u` in [0, 1). */
  function Uniform(lo: real, hi: real, u: real): real
  {
    lo + (hi - lo) * u
  }

  /** A draw in [0, 1) lands in [lo, hi]. */
  lemma UniformInRange(lo: real, hi: real, u: real)
    requires 0.0 <= u < 1.0 && lo <= hi
    ensures lo <= Uniform(lo, hi, u) <= hi
  {
    var w := hi - lo;
    assert 0.0 <= w * u;
    assert w * u <= w * 1.0 by {
      assert w * 1.0 - w * u == w * (1.0 - u);
      assert 0.0 <= w * (1.0 - u);
    }
  }

  /** `function(grid, t)` maximised over the grid; `np.max` of nothing
      raises. */
  function GridMax(f: (real, real) -> real, grid: seq<real>, t: real): (r: Result<real>)
    ensures r.Ok? <==> grid != []
    ensures r.Err? ==> r.error == ValueError
    ensures r.Ok? ==> (exists k :: 0 <= k < |grid| && r.value == f(grid[k], t)) &&
                      forall k :: 0 <= k < |grid| ==> f(grid[k], t) <= r.value
  {
    if grid == [] then Err(ValueError)
    else
      var values := seq(|grid|, k requires 0 <= k < |grid| => f(grid[k], t));
      var m := Max(values);
      assert values[ArgMax(values)] == m;
      assert forall k :: 0 <= k < |grid| ==> values[k] == f(grid[k], t);
      Ok(m)
  }

  /** The proposal of `evolution_sampler`: the second draw of a pair scaled
      into [emin, emax]. */
  function EvolutionProposal(emin: real, emax: real): ((real, real)) -> real
  {
    (d: (real, real)) => Uniform(emin, emax, d.1)
  }

  /** The test value of `evolution_sampler`: the first draw of a pair scaled
      into [0, fmax]. */
  function EvolutionEnvelope(fmax: real): (real, (real, real)) -> real
  {
    (x: real, d: (real, real)) => Uniform(0.0, fmax, d.0)
  }

  /** The target density at time t, as a function of energy. */
  function AtTime(f: (real, real) -> real, t: real): real -> real
  {
    (x: real) => f(x, t)
  }

  /** N zeros (`np.zeros(N)`). */
  function Zeros(n: nat): (z: seq<real>)
    ensures |z| == n && forall k :: 0 <= k < n ==> z[k] == 0.0
  {
    seq(n, k => 0.0)
  }

  /** The samples of a finished run, without the position of the next
      unused draw. */
  function Samples(run: Result<(seq<real>, nat)>): (r: Result<seq<real>>)
    ensures r.Ok? <==> run.Ok?
    ensures r.Ok? ==> r.value == run.value.0
    ensures r.Err? ==> r.error == run.error
  {
    match run
    case Ok((out, _)) => Ok(out)
    case Err(e) => Err(e)
  }

  /** One time of `evolution_sampler`: bound the target by its maximum over
      the grid at t, then draw until a proposal passes. */
  function EvolutionDraw(f: (real, real) -> real, grid: seq<real>, emin: real, emax: real,
                         draws: seq<(real, real)>, t: real, j: nat): Result<(real, nat)>
  {
    match GridMax(f, grid, t)
    case Err(e) => Err(e)
    case Ok(fmax) => FirstAccepted(EvolutionProposal(emin, emax), EvolutionEnvelope(fmax), AtTime(f, t), draws, j)
  }

  method DrawEvolution(f: (real, real) -> real, grid: seq<real>, emin: real, emax: real,
                       draws: seq<(real, real)>, t: real, j: nat) returns (r: Result<(real, nat)>)
    ensures r == EvolutionDraw(f, grid, emin, emax, draws, t, j)
  {
    var bound := GridMax(f, grid, t);
    if bound.Err? {
      return Err(bound.error);
    }
    r := DrawUntilAccepted(EvolutionProposal(emin, emax), EvolutionEnvelope(bound.value), AtTime(f, t), draws, j);
  }

  /** `evolution_sampler` from time i on, given the output array so far and
      the next unused draw: the finished array and the draw position after
      it, or the first error. Time i writes `out[i]`, which raises once i
      reaches N. */
  function EvolutionFrom(times: seq<real>, f: (real, real) -> real, grid: seq<real>, emin: real, emax: real,
                         draws: seq<(real, real)>, out: seq<real>, i: nat, j: nat): (r: Result<(seq<real>, nat)>)
    requires i <= |times|
    ensures r.Ok? ==> |r.value.0| == |out|
    decreases |times| - i
  {
    if i == |times| then Ok((out, j))
    else
      match EvolutionDraw(f, grid, emin, emax, draws, times[i], j)
      case Err(e) => Err(e)
      case Ok((x, next)) =>
        if i >= |out| then Err(IndexError)
        else EvolutionFrom(times, f, grid, emin, emax, draws, out[i := x], i + 1, next)
  }

  /** `evolution_sampler(times, N, function, grid, emin, emax)`, with the
      pairs of uniform draws (the test, then the proposal) passed in. */
  method EvolutionSampler(times: seq<real>, size: nat, f: (real, real) -> real, grid: seq<real>,
                          emin: real, emax: real, draws: seq<(real, real)>)
      returns (r: Result<seq<real>>)
    ensures r == Samples(EvolutionFrom(times, f, grid, emin, emax, draws, Zeros(size), 0, 0))
  {
    var out := new real[size](_ => 0.0);
    var j := 0;
    var i := 0;
    assert out[..] == Zeros(size);
    while i < |times|
      invariant 0 <= i <= |times| && out.Length == size
      invariant EvolutionFrom(times, f, grid, emin, emax, draws, Zeros(size), 0, 0)
                == EvolutionFrom(times, f, grid, emin, emax, draws, out[..], i, j)
    {
      var accepted := DrawEvolution(f, grid, emin, emax, draws, times[i], j);
      if accepted.Err? {
        return Err(accepted.error);
      }
      if i >= size {
        return Err(IndexError);
      }
      out[i] := accepted.value.0;
      j := accepted.value.1;
      i := i + 1;
    }
    return Ok(out[..]);
  }

  /** A successful run keeps the slots before i and every slot from the
      number of times on; each slot from i up to it holds a proposal that
      passed its test against the grid maximum at that time, drawn from a
      pair at or after j that the run consumed. */
  lemma {:induction false} EvolutionSamples(times: seq<real>, f: (real, real) -> real, grid: seq<real>, emin: real, emax: real,
                                           draws: seq<(real, real)>, out: seq<real>, i: nat, j: nat)
    requires i <= |times| && j <= |draws|
    requires EvolutionFrom(times, f, grid, emin, emax, draws, out, i, j).Ok?
    ensures var (res, used) := EvolutionFrom(times, f, grid, emin, emax, draws, out, i, j).value;
            |res| == |out| && (i < |times| ==> |times| <= |out|) && j <= used <= |draws| &&
            (forall k :: 0 <= k < |out| && (k < i || |times| <= k) ==> res[k] == out[k]) &&
            forall k :: i <= k < |times| ==>
              GridMax(f, grid, times[k]).Ok? &&
              exists d :: j <= d < used &&
                res[k] == Uniform(emin, emax, draws[d].1) &&
                Uniform(0.0, GridMax(f, grid, times[k]).value, draws[d].0) <= f(res[k], times[k])
    decreases |times| - i
  {
    if i < |times| {
      var t := times[i];
      var fmax := GridMax(f, grid, t).value;
      FirstAcceptedAccepts(EvolutionProposal(emin, emax), EvolutionEnvelope(fmax), AtTime(f, t), draws, j);
      var (x, next) := EvolutionDraw(f, grid, emin, emax, draws, t, j).value;
      EvolutionSamples(times, f, grid, emin, emax, draws, out[i := x], i + 1, next);
      assert EvolutionFrom(times, f, grid, emin, emax, draws, out, i, j)
             == EvolutionFrom(times, f, grid, emin, emax, draws, out[i := x], i + 1, next);
      var (res, used) := EvolutionFrom(times, f, grid, emin, emax, draws, out, i, j).value;
      forall k | i <= k < |times|
        ensures exists d :: j <= d < used &&
                  res[k] == Uniform(emin, emax, draws[d].1) &&
                  Uniform(0.0, GridMax(f, grid, times[k]).value, draws[d].0) <= f(res[k], times[k])
      {
        if k == i {
          assert res[k] == Uniform(emin, emax, draws[next - 1].1);
        } else {
          assert i + 1 <= k < |times|;
        }
      }
    }
  }

  /** The power-law index with -1 moved off the pole of 1/(index + 1). */
  function BumpedIndex(index: real): (r: real)
    ensures r != -1.0
    ensures index != -1.0 ==> r == index
  {
    if index == -1.0 then -1.0 + 1.0e-20 else index
  }

  /** The proposal of `plaw_evolution_sampler`: the inverse cumulative
      distribution of a power law between emin and emax applied to the first
      draw. `pow` is the floating-point power, left uninterpreted. */
  function PlawProposal(pow: (real, real) -> real, index: real, emin: real, emax: real): ((real, real)) -> real
    requires index != -1.0
  {
    (d: (real, real)) => pow((pow(emax, index + 1.0) - pow(emin, index + 1.0)) * d.0 + pow(emin, index + 1.0), 1.0 / (index + 1.0))
  }

  /** The envelope of `plaw_evolution_sampler`: the second draw times
      C·(x / pivot)^index. */
  function PlawEnvelope(pow: (real, real) -> real, index: real, c: real, pivot: real): (real, (real, real)) -> real
    requires pivot != 0.0
  {
    (x: real, d: (real, real)) => d.1 * c * pow(x / pivot, index)
  }

  /** The envelope scale: five times the largest value on the grid. */
  function EnvelopeScale(values: seq<real>): (c: real)
    requires values != []
    ensures forall k :: 0 <= k < |values| ==> 5.0 * values[k] <= c
    ensures exists k :: 0 <= k < |values| && c == 5.0 * values[k]
  {
    assert values[ArgMax(values)] == Max(values);
    5.0 * values[ArgMax(values)]
  }

  /** The energy grid: non-empty (500 points in the source) and positive,
      as a logarithmic grid between positive bounds is. */
  predicate EnergyGrid(egrid: seq<real>) {
    egrid != [] && forall k :: 0 <= k < |egrid| ==> egrid[k] > 0.0
  }

  /** The target on the energy grid at time t. */
  function GridValues(f: (real, real) -> real, egrid: seq<real>, t: real): (v: seq<real>)
    ensures |v| == |egrid| && forall k :: 0 <= k < |egrid| ==> v[k] == f(egrid[k], t)
  {
    seq(|egrid|, k requires 0 <= k < |egrid| => f(egrid[k], t))
  }

  /** The envelope at time t: pinned at the grid energy where the target
      peaks and scaled to five times the peak. */
  function PlawEnvelopeAt(f: (real, real) -> real, pow: (real, real) -> real, ix: real,
                          egrid: seq<real>, t: real): (real, (real, real)) -> real
    requires EnergyGrid(egrid)
  {
    var values := GridValues(f, egrid, t);
    PlawEnvelope(pow, ix, EnvelopeScale(values), egrid[ArgMax(values)])
  }

  /** One time of `plaw_evolution_sampler`: power-law proposals are drawn
      until one passes the test against the envelope at that time. */
  function PlawDraw(f: (real, real) -> real, pow: (real, real) -> real, ix: real, emin: real, emax: real,
                    egrid: seq<real>, draws: seq<(real, real)>, t: real, j: nat): Result<(real, nat)>
    requires ix != -1.0 && EnergyGrid(egrid)
  {
    FirstAccepted(PlawProposal(pow, ix, emin, emax), PlawEnvelopeAt(f, pow, ix, egrid, t), AtTime(f, t), draws, j)
  }

  /** x is the power-law proposal of the pair d and passes its test at time
      t: u·C·(x / pivot)^index does not exceed the target at x and t. */
  predicate PlawAccepts(f: (real, real) -> real, pow: (real, real) -> real, ix: real, emin: real, emax: real,
                        egrid: seq<real>, t: real, x: real, d: (real, real))
    requires ix != -1.0 && EnergyGrid(egrid)
  {
    x == PlawProposal(pow, ix, emin, emax)(d) && PlawEnvelopeAt(f, pow, ix, egrid, t)(x, d) <= f(x, t)
  }

  /** An accepted power-law draw is the proposal of the last pair used, and
      passes its test: u·C·(x / pivot)^index does not exceed the target at
      that energy and time. */
  lemma PlawDrawProposes(f: (real, real) -> real, pow: (real, real) -> real, ix: real, emin: real, emax: real,
                         egrid: seq<real>, draws: seq<(real, real)>, t: real, j: nat)
    requires ix != -1.0 && EnergyGrid(egrid)
    requires PlawDraw(f, pow, ix, emin, emax, egrid, draws, t, j).Ok?
    ensures var (x, next) := PlawDraw(f, pow, ix, emin, emax, egrid, draws, t, j).value;
            j < next <= |draws| && PlawAccepts(f, pow, ix, emin, emax, egrid, t, x, draws[next - 1])
  {
    FirstAcceptedAccepts(PlawProposal(pow, ix, emin, emax), PlawEnvelopeAt(f, pow, ix, egrid, t), AtTime(f, t), draws, j);
  }

  method DrawPlaw(f: (real, real) -> real, pow: (real, real) -> real, ix: real, emin: real, emax: real,
                  egrid: seq<real>, draws: seq<(real, real)>, t: real, j: nat) returns (r: Result<(real, nat)>)
    requires ix != -1.0 && EnergyGrid(egrid)
    ensures r == PlawDraw(f, pow, ix, emin, emax, egrid, draws, t, j)
  {
    var values := GridValues(f, egrid, t);
    var idx := ArgMax(values);
    var c := EnvelopeScale(values);
    assert PlawEnvelope(pow, ix, c, egrid[idx]) == PlawEnvelopeAt(f, pow, ix, egrid, t);
    r := DrawUntilAccepted(PlawProposal(pow, ix, emin, emax), PlawEnvelope(pow, ix, c, egrid[idx]), AtTime(f, t), draws, j);
  }

  /** Slot i of `plaw_evolution_sampler`: it reads `times[i]`, which
      raises once i reaches the number of times, then draws at that time. */
  function PlawSlot(times: seq<real>, f: (real, real) -> real, pow: (real, real) -> real, ix: real,
                    emin: real, emax: real, egrid: seq<real>, draws: seq<(real, real)>, i: nat, j: nat)
    : Result<(real, nat)>
    requires ix != -1.0 && EnergyGrid(egrid)
  {
    if i >= |times| then Err(IndexError) else PlawDraw(f, pow, ix, emin, emax, egrid, draws, times[i], j)
  }

  method DrawSlot(times: seq<real>, f: (real, real) -> real, pow: (real, real) -> real, ix: real,
                  emin: real, emax: real, egrid: seq<real>, draws: seq<(real, real)>, i: nat, j: nat)
      returns (r: Result<(real, nat)>)
    requires ix != -1.0 && EnergyGrid(egrid)
    ensures r == PlawSlot(times, f, pow, ix, emin, emax, egrid, draws, i, j)
  {
    if i >= |times| {
      return Err(IndexError);
    }
    r := DrawPlaw(f, pow, ix, emin, emax, egrid, draws, times[i], j);
  }

  /** `plaw_evolution_sampler` from slot i on, given the output array so
      far and the next unused draw: the finished array and the draw position
      after it, or the first error. */
  function PlawFrom(times: seq<real>, f: (real, real) -> real, pow: (real, real) -> real, index: real,
                    emin: real, emax: real, egrid: seq<real>, draws: seq<(real, real)>,
                    out: seq<real>, i: nat, j: nat): (r: Result<(seq<real>, nat)>)
    requires i <= |out| && EnergyGrid(egrid)
    ensures r.Ok? ==> |r.value.0| == |out|
    decreases |out| - i
  {
    if i == |out| then Ok((out, j))
    else
      match PlawSlot(times, f, pow, BumpedIndex(index), emin, emax, egrid, draws, i, j)
      case Err(e) => Err(e)
      case Ok((x, next)) => PlawFrom(times, f, pow, index, emin, emax, egrid, draws, out[i := x], i + 1, next)
  }

  /** `plaw_evolution_sampler(times, N, function, index, emin, emax,
      eff_area_max)`, with the logarithmic energy grid and the pairs of
      uniform draws passed in. `eff_area_max` is not used. */
  method PlawEvolutionSampler(times: seq<real>, size: nat, f: (real, real) -> real, pow: (real, real) -> real,
                              index: real, emin: real, emax: real, egrid: seq<real>, draws: seq<(real, real)>)
      returns (r: Result<seq<real>>)
    requires EnergyGrid(egrid)
    ensures r == Samples(PlawFrom(times, f, pow, index, emin, emax, egrid, draws, Zeros(size), 0, 0))
  {
    var out := new real[size](_ => 0.0);
    var j := 0;
    var i := 0;
    // The source moves an index of -1 off the pole inside the loop, before
    // its first use; doing it once up front gives the same index everywhere.
    var ix := BumpedIndex(index);
    assert out[..] == Zeros(size);
    while i < size
      invariant 0 <= i <= size && out.Length == size
      invariant ix == BumpedIndex(index)
      invariant PlawFrom(times, f, pow, index, emin, emax, egrid, draws, Zeros(size), 0, 0)
                == PlawFrom(times, f, pow, index, emin, emax, egrid, draws, out[..], i, j)
    {
      var accepted := DrawSlot(times, f, pow, ix, emin, emax, egrid, draws, i, j);
      if accepted.Err? {
        return Err(accepted.error);
      }
      out[i] := accepted.value.0;
      j := accepted.value.1;
      i := i + 1;
    }
    return Ok(out[..]);
  }

  /** A successful run from slot i is the run from slot i + 1 after the
      draw at slot i, which passes its test at that slot's time. */
  lemma PlawFromStep(times: seq<real>, f: (real, real) -> real, pow: (real, real) -> real, index: real,
                     emin: real, emax: real, egrid: seq<real>, draws: seq<(real, real)>,
                     out: seq<real>, i: nat, j: nat)
    requires i < |out| && EnergyGrid(egrid)
    requires PlawFrom(times, f, pow, index, emin, emax, egrid, draws, out, i, j).Ok?
    ensures PlawSlot(times, f, pow, BumpedIndex(index), emin, emax, egrid, draws, i, j).Ok?
    ensures var (x, next) := PlawSlot(times, f, pow, BumpedIndex(index), emin, emax, egrid, draws, i, j).value;
            i < |times| && j < next <= |draws| &&
            PlawAccepts(f, pow, BumpedIndex(index), emin, emax, egrid, times[i], x, draws[next - 1]) &&
            PlawFrom(times, f, pow, index, emin, emax, egrid, draws, out, i, j)
            == PlawFrom(times, f, pow, index, emin, emax, egrid, draws, out[i := x], i + 1, next)
  {
    PlawDrawProposes(f, pow, BumpedIndex(index), emin, emax, egrid, draws, times[i], j);
  }

  /** A successful run keeps the slots before i, and fills every slot from
      i on with a power-law proposal that passed its envelope test at that
      slot's time, drawn from a pair at or after j that the run consumed. */
  lemma {:induction false} PlawSamples(times: seq<real>, f: (real, real) -> real, pow: (real, real) -> real, index: real,
                                      emin: real, emax: real, egrid: seq<real>, draws: seq<(real, real)>,
                                      out: seq<real>, i: nat, j: nat)
    requires i <= |out| && j <= |draws| && EnergyGrid(egrid)
    requires PlawFrom(times, f, pow, index, emin, emax, egrid, draws, out, i, j).Ok?
    ensures var (res, used) := PlawFrom(times, f, pow, index, emin, emax, egrid, draws, out, i, j).value;
            |res| == |out| && (i < |out| ==> |out| <= |times|) && j <= used <= |draws| &&
            (forall k :: 0 <= k < i ==> res[k] == out[k]) &&
            forall k :: i <= k < |out| ==>
              exists d :: j <= d < used && PlawAccepts(f, pow, BumpedIndex(index), emin, emax, egrid, times[k], res[k], draws[d])
    decreases |out| - i
  {
    if i < |out| {
      var ix := BumpedIndex(index);
      PlawFromStep(times, f, pow, index, emin, emax, egrid, draws, out, i, j);
      var (x, next) := PlawSlot(times, f, pow, ix, emin, emax, egrid, draws, i, j).value;
      PlawSamples(times, f, pow, index, emin, emax, egrid, draws, out[i := x], i + 1, next);
      var (res, used) := PlawFrom(times, f, pow, index, emin, emax, egrid, draws, out, i, j).value;
      forall k | i <= k < |out|
        ensures exists d :: j <= d < used && PlawAccepts(f, pow, ix, emin, emax, egrid, times[k], res[k], draws[d])
      {
        if k == i {
          assert res[k] == x;
          assert PlawAccepts(f, pow, ix, emin, emax, egrid, times[k], res[k], draws[next - 1]);
        } else {
          assert i + 1 <= k < |out[i := x]|;
        }
      }
    }
  }
}
