/** The background sampler of cosmogrb/sampler/background.py: a constant
    rate Poisson generator, a channel template built from a histogram of
    counts, and the `Background` sampler that holds one rate for its whole
    life. Random numbers are passed in as draws. */
module Background {
  import opened Common
  import opened Reductions
  import opened Samplers

  /** The flux of a constant-rate background. */
  function ConstantRate(rate: real): real -> real
  {
    (t: real) => rate
  }

  /** `background_poisson_generator(tstart, tstop, rate)`: the thinning loop
      with `fmax = rate` and the test `rate / fmax`. */
  method BackgroundPoissonGenerator(tstart: real, tstop: real, rate: real, exps: seq<real>, tests: seq<real>)
      returns (r: Result<seq<real>>)
    ensures r == PoissonArrivals(tstart, tstop, ConstantRate(rate), rate, exps, tests)
  {
    var fmax := rate;
    if fmax == 0.0 {
      return Err(ZeroDivisionError);
    }
    var time := tstart;
    var arrivals := [tstart];
    var i := 0;
    while true
      invariant PoissonArrivals(tstart, tstop, ConstantRate(rate), fmax, exps, tests)
                == AppendResult(arrivals, Thinned(time, tstop, ConstantRate(rate), fmax, exps, tests, i))
      decreases |exps| - i
    {
      if i >= |exps| {
        return Err(OutOfDraws);
      }
      ThinnedStep(arrivals, time, tstop, ConstantRate(rate), fmax, exps, tests, i);
      time := time + Step(fmax, exps[i]);
      if time > tstop {
        break;
      }
      if i >= |tests| {
        return Err(OutOfDraws);
      }
      var pTest := rate / fmax;
      if tests[i] <= pTest {
        arrivals := arrivals + [time];
      }
      i := i + 1;
    }
    return Ok(arrivals);
  }

  /** Test draws are uniform in [0, 1), so with `fmax = rate` no test fails:
      the background keeps every candidate before `tstop`, starts at
      `tstart`, and with a positive rate and positive exponential draws is
      strictly increasing and bounded by `tstop`. */
  lemma BackgroundKeepsEveryCandidate(tstart: real, tstop: real, rate: real, exps: seq<real>, tests: seq<real>)
    requires PoissonArrivals(tstart, tstop, ConstantRate(rate), rate, exps, tests).Ok?
    requires forall k :: 0 <= k < |tests| ==> tests[k] < 1.0
    ensures rate != 0.0
    ensures PoissonArrivals(tstart, tstop, ConstantRate(rate), rate, exps, tests).value
            == [tstart] + Candidates(tstart, tstop, rate, exps, 0)
    ensures var s := PoissonArrivals(tstart, tstop, ConstantRate(rate), rate, exps, tests).value;
            s[0] == tstart && (forall k :: 1 <= k < |s| ==> s[k] <= tstop) &&
            (rate > 0.0 && (forall k :: 0 <= k < |exps| ==> exps[k] > 0.0) ==>
               forall a, b :: 0 <= a < b < |s| ==> s[a] < s[b])
  {
    var flux := ConstantRate(rate);
    ThinnedIsKeptCandidates(tstart, tstop, flux, rate, exps, tests, 0);
    PoissonArrivalsShape(tstart, tstop, flux, rate, exps, tests);
    var c := Candidates(tstart, tstop, rate, exps, 0);
    if c != [] {
      forall k | 0 <= k < |c| ensures tests[0..][k] <= flux(c[k]) / rate {
        assert flux(c[k]) / rate == 1.0;
      }
      AllPassKeepsAll(c, tests[0..], flux, rate);
    }
  }

  // ---------------------------------------------------------------------
  // Channel template

  /** A background channel template: the counts per channel, the channel
      numbers, and the weights counts / sum(counts) (`None` when the counts
      sum to zero, where numpy's division leaves no usable weights). */
  datatype SpectrumTemplate = SpectrumTemplate(counts: seq<real>, channels: seq<int>, weights: Option<seq<real>>)

  /** `[i + j for i in range(n)]`, j = 1 with `start_at_one`, else 0. */
  function TemplateChannels(n: nat, startAtOne: bool): (ch: seq<int>)
    ensures |ch| == n
    ensures forall i :: 0 <= i < n ==> ch[i] == if startAtOne then i + 1 else i
  {
    var j := if startAtOne then 1 else 0;
    seq(n, i requires 0 <= i < n => i + j)
  }

  /** `_normalize_counts`. */
  function NormalizeCounts(counts: seq<real>): (w: Option<seq<real>>)
    ensures w.Some? <==> Sum(counts) != 0.0
    ensures w.Some? ==> |w.value| == |counts| &&
                        forall i :: 0 <= i < |counts| ==> w.value[i] == counts[i] / Sum(counts)
  {
    var total := Sum(counts);
    if total == 0.0 then None
    else
      var w := Scale(counts, 1.0 / total);
      assert forall i :: 0 <= i < |counts| ==> w[i] == counts[i] / total;
      Some(w)
  }

  /** `BackgroundSpectrumTemplate(counts, start_at_one)`. */
  function NewTemplate(counts: seq<real>, startAtOne: bool): (t: SpectrumTemplate)
    ensures t.counts == counts && |t.channels| == |counts|
    ensures t.channels == TemplateChannels(|counts|, startAtOne)
    ensures t.weights == NormalizeCounts(counts)
    ensures WellFormed(t)
  {
    SpectrumTemplate(counts, TemplateChannels(|counts|, startAtOne), NormalizeCounts(counts))
  }

  /** Normalised weights of non-negative counts sum to one. */
  lemma WeightsSumToOne(counts: seq<real>)
    requires Sum(counts) != 0.0
    ensures Sum(NormalizeCounts(counts).value) == 1.0
  {
    var total := Sum(counts);
    SumScale(counts, 1.0 / total);
    assert NormalizeCounts(counts).value == Scale(counts, 1.0 / total);
  }

  /** `np.random.choice(channels, p=weights)` for one uniform draw u: the
      channel whose slot of the cumulative weights holds u. */
  function ChoiceIndex(weights: seq<real>, u: real): (k: nat)
    ensures k <= |weights|
  {
    SearchSortedRight(CumSum(weights), u)
  }

  /** The chosen slot is the one whose cumulative interval
      [cdf[k-1], cdf[k]) holds u. */
  lemma ChoiceIndexBrackets(weights: seq<real>, u: real)
    requires NonNegative(weights) && 0.0 <= u
    ensures var k := ChoiceIndex(weights, u);
            var cdf := CumSum(weights);
            (k < |weights| ==> u < cdf[k]) && (0 < k ==> cdf[k - 1] <= u)
  {
  }

  /** With weights summing to one, a draw in [0, 1) picks a real slot. */
  lemma ChoiceIndexInRange(weights: seq<real>, u: real)
    requires NonNegative(weights) && Sum(weights) == 1.0 && 0.0 <= u < 1.0
    ensures ChoiceIndex(weights, u) < |weights|
  {
    CumSumOfNonNegative(weights);
  }

  /** The template's parts agree in length. */
  predicate WellFormed(t: SpectrumTemplate)
  {
    |t.channels| == |t.counts| && (t.weights.Some? ==> |t.weights.value| == |t.counts|)
  }

  /** Every draw lands in a slot of the weights. */
  predicate ChoicesInRange(weights: seq<real>, draws: seq<real>)
  {
    forall i :: 0 <= i < |draws| ==> ChoiceIndex(weights, draws[i]) < |weights|
  }

  /** `sample_channel(size)` of a template: one channel per draw. numpy
      refuses weights that are not finite, not non-negative or that do not
      cover the draw. */
  function SampleTemplate(t: SpectrumTemplate, draws: seq<real>): (r: Result<seq<int>>)
    requires WellFormed(t)
    ensures r.Ok? ==> |r.value| == |draws|
  {
    if t.weights.None? || !NonNegative(t.weights.value) || !ChoicesInRange(t.weights.value, draws) then Err(ValueError)
    else Ok(seq(|draws|, i requires 0 <= i < |draws| => t.channels[ChoiceIndex(t.weights.value, draws[i])]))
  }

  /** Weights of non-negative counts are non-negative. */
  lemma WeightsNonNegative(counts: seq<real>)
    requires NonNegative(counts) && Sum(counts) != 0.0
    ensures NonNegative(NormalizeCounts(counts).value)
  {
    SumNonNegative(counts);
    var w := NormalizeCounts(counts).value;
    forall i | 0 <= i < |w| ensures 0.0 <= w[i] {
      assert w[i] == counts[i] / Sum(counts);
    }
  }

  /** A template built from non-negative counts with a positive total turns
      every draw in [0, 1) into one of its channels: the channel of the
      cumulative-weight slot holding the draw. Zero total counts fail. */
  lemma SampleTemplateChannels(counts: seq<real>, startAtOne: bool, draws: seq<real>)
    requires NonNegative(counts)
    requires forall i :: 0 <= i < |draws| ==> 0.0 <= draws[i] < 1.0
    ensures var r := SampleTemplate(NewTemplate(counts, startAtOne), draws);
            (r.Ok? <==> Sum(counts) != 0.0) &&
            (r.Err? ==> r.error == ValueError) &&
            (r.Ok? ==> forall i :: 0 <= i < |draws| ==>
                         var k := ChoiceIndex(NormalizeCounts(counts).value, draws[i]);
                         k < |counts| && r.value[i] == (if startAtOne then k + 1 else k))
  {
    if Sum(counts) != 0.0 {
      var w := NormalizeCounts(counts).value;
      WeightsNonNegative(counts);
      WeightsSumToOne(counts);
      forall i | 0 <= i < |draws| ensures ChoiceIndex(w, draws[i]) < |w| {
        ChoiceIndexInRange(w, draws[i]);
      }
      assert ChoicesInRange(w, draws);
    }
  }

  // ---------------------------------------------------------------------
  // The sampler

  /** `Background(tstart, tstop, average_rate, template)`. The rate is the
      constructor's one normal draw around `average_rate`, passed in; every
      call to `SampleTimes` reuses it. */
  class BackgroundSampler {
    const tstart: real
    const tstop: real
    const rate: real
    const template: Option<SpectrumTemplate>

    predicate Valid()
    {
      template.Some? ==> WellFormed(template.value)
    }

    constructor (tstart: real, tstop: real, rateDraw: real, template: Option<SpectrumTemplate>)
      requires template.Some? ==> WellFormed(template.value)
      ensures this.tstart == tstart && this.tstop == tstop && this.rate == rateDraw && this.template == template
      ensures Valid()
    {
      this.tstart := tstart;
      this.tstop := tstop;
      this.rate := rateDraw;
      this.template := template;
    }

    /** `sample_times`: the constant-rate generator at this sampler's
        rate. */
    method SampleTimes(exps: seq<real>, tests: seq<real>) returns (r: Result<seq<real>>)
      ensures r == PoissonArrivals(tstart, tstop, ConstantRate(rate), rate, exps, tests)
    {
      r := BackgroundPoissonGenerator(tstart, tstop, rate, exps, tests);
    }

    /** What `sample_channel(size)` returns for `size` draws. */
    function ChannelsOutcome(draws: seq<real>): (r: Result<seq<int>>)
      requires Valid()
      ensures r.Ok? ==> |r.value| == |draws|
    {
      if template.None? then Err(NotImplementedError) else SampleTemplate(template.value, draws)
    }

    /** `sample_channel(size)`: the template's channels, and
        NotImplementedError without a template. */
    method SampleChannel(draws: seq<real>) returns (r: Result<seq<int>>)
      requires Valid()
      ensures template.None? ==> r == Err(NotImplementedError)
      ensures template.Some? ==> r == SampleTemplate(template.value, draws)
      ensures r == ChannelsOutcome(draws)
    {
      if template.None? {
        return Err(NotImplementedError);
      }
      r := SampleTemplate(template.value, draws);
    }
  }
}
