# cosmogrb in Dafny

A model of the simulation core of cosmogrb, a Python package that simulates
gamma-ray bursts (GRBs) as the Fermi GBM detectors would see them. For each
detector a light curve is simulated in these steps:

1. Sample source photon arrival times from the burst's energy-integrated
   flux. This uses a non-homogeneous Poisson process by thinning.
2. Draw a photon energy for each arrival, shift it to the observer frame,
   and turn it into a detector channel with the response matrix.
3. Sample background events from a constant rate and a channel template.
4. Merge the source and background events in time order.
5. For GBM, drop the events lost to the detector's dead time.

On top of the light curves sit:

- the GRB object, with its bounded parameter descriptors;
- a light-curve container with a channel filter;
- a light-curve analyser base;
- a detector base;
- the GBM trigger, which declares a burst detected when two NaI detectors
  trigger within a coincidence window.

Interval arithmetic for time intervals and sets of them is modelled
alongside.

## Modelling conventions

- Random numbers are inputs.
  - Exponential steps and uniform test draws are sequences.
  - A loop that would need a draw past the end of its sequence ends with
    `OutOfDraws`. The Python loop would keep drawing.
- The source function's flux, the energy samplers and the per-detector
  analysis are function-typed inputs.
- Python exceptions are `Err` values of one error type (`Common.Error`), in
  a `Result`.
- numpy's `argsort` is the stable argsort of `sorting.dfy`. Contracts about
  numpy call sites claim only "sorted, and a permutation".
- Objects whose fields the code updates are classes, with `modifies`
  clauses. A constructor that can raise is a module-level `Open*` method
  that returns a `Result`.
- Reals are unbounded and exact. Floating-point rounding is not modelled.

## Model

| member | source | states |
|---|---|---|
| TimeIntervals.NewInterval | cosmogrb/utils/time_interval.py:20-44 | an inverted interval is a RuntimeError unless swapping is asked for; the result spans min..max of the ends; exposure is computed from the unswapped arguments minus the dead time |
| TimeIntervals.SwappedExposureIsNegative | cosmogrb/utils/time_interval.py:28-44 | a swapped interval keeps the negative exposure of its inverted arguments, while its width is positive |
| TimeIntervals.Rate | cosmogrb/utils/time_interval.py:82-85 | no counts gives no rate; otherwise rate × exposure = counts; a zero exposure is a ZeroDivisionError |
| TimeIntervals.OverlapsIffSharedInterior | cosmogrb/utils/time_interval.py:156-183 | for positive-width intervals the case analysis of `overlaps_with` holds exactly when the later start is before the earlier stop |
| TimeIntervals.TouchingDoNotOverlap | cosmogrb/utils/time_interval.py:156-183 | intervals that only touch do not overlap, in either direction |
| TimeIntervals.Intersect | cosmogrb/utils/time_interval.py:105-123 | fails with IntervalsDoNotOverlap exactly when there is no overlap; otherwise [max start, min stop], inside both intervals |
| TimeIntervals.Merge | cosmogrb/utils/time_interval.py:125-154 | fails exactly when there is no overlap; otherwise the hull covering both; dead times added; counts added only when both are known |
| TimeIntervals.Shift | cosmogrb/utils/time_interval.py:46-64 | the shifted interval is the interval built from the moved ends, with the same width |
| TimeIntervals.ShiftRoundTrip | cosmogrb/utils/time_interval.py:46-64 | shifting by n and back gives the same ends (the `==` of lines 195-207); the value is identical exactly when it had no counts, no dead time and exposure equal to width |
| TimeIntervals.FromStartsAndStops | cosmogrb/utils/time_interval.py:221-265 | a stops, counts or dead-time list whose length differs from the starts is an AssertionError; with matching lengths it succeeds exactly when every start ≤ stop; the intervals carry the given ends, counts (None when absent) and dead times (0 when absent) |
| TimeIntervals.BuildIntervals | cosmogrb/utils/time_interval.py:260-265 | one interval per position, each the constructor's result; RuntimeError exactly when some start > stop |
| TimeIntervals.EmptySetEqualsAny | cosmogrb/utils/time_interval.py:386-393 | because `__eq__` walks both sets with `zip`, the empty set equals every set |
| TimeIntervals.MergeLoop | cosmogrb/utils/time_interval.py:305-334 | the pop/merge/append loop ends where `MergePass` says: the emitted intervals and at most one leftover |
| TimeIntervals.MergeSortedIntervals | cosmogrb/utils/time_interval.py:292-367 | the loop followed by the leftover step returns what `MergeIntersecting` gives for the sorted list |
| TimeIntervals.MergeIntersectingLength | cosmogrb/utils/time_interval.py:292-367 | the merged list is never longer than the input, and non-empty for non-empty input |
| TimeIntervals.MergePassStarts | cosmogrb/utils/time_interval.py:307-334 | the loop's output is ordered by start and starts where the input starts |
| TimeIntervals.MergeIntersectingOrdered | cosmogrb/utils/time_interval.py:292-367 | given a start-ordered list, the merged list is start-ordered |
| TimeIntervals.MergePassCovers | cosmogrb/utils/time_interval.py:307-334 | every input interval lies inside some interval the loop emits or leaves over |
| TimeIntervals.MergeIntersectingCovers | cosmogrb/utils/time_interval.py:292-367 | every input interval lies inside some output interval |
| TimeIntervals.MergePassKeepsDisjoint | cosmogrb/utils/time_interval.py:307-334 | with no overlapping neighbours the loop emits the list unchanged |
| TimeIntervals.MergeIntersectingKeepsDisjoint | cosmogrb/utils/time_interval.py:292-367 | a list with no overlapping neighbours comes back unchanged |
| TimeIntervals.MergeOutputMayOverlap | cosmogrb/utils/time_interval.py:292-367 | a sorted input whose merged output still holds two overlapping intervals |
| TimeIntervals.SortedNoOverlapIff | cosmogrb/utils/time_interval.py:156-183 | for start-ordered intervals, not overlapping is the same as the first ending no later than the second starts (and sharing no end) |
| TimeIntervals.MergeSweep | cosmogrb/utils/time_interval.py:292-299 | the documented merge: valid intervals, never more than the input, non-empty for non-empty input |
| TimeIntervals.MergeSweepDisjoint | cosmogrb/utils/time_interval.py:292-299 | the documented merge is start-ordered, pairwise non-overlapping, and covers every input interval |
| TimeIntervals.MergeSweepExample | cosmogrb/utils/time_interval.py:292-299 | on the counterexample input the documented merge gives the single interval [0, 10] |
| TimeIntervals.TimeIntervalSet.constructor | cosmogrb/utils/time_interval.py:216-218 | the set holds the given list |
| TimeIntervals.TimeIntervalSet.ArgsortIdx | cosmogrb/utils/time_interval.py:416-426 | a permutation of the indices that orders the starts, with ties in list order |
| TimeIntervals.TimeIntervalSet.IsSortedIff | cosmogrb/utils/time_interval.py:441-448 | `is_sorted` (argsort is the identity) holds exactly when the starts are non-decreasing |
| TimeIntervals.TimeIntervalSet.SortedIntervals | cosmogrb/utils/time_interval.py:399-414 | the sorted contents are the intervals read along the argsort, ordered by start |
| TimeIntervals.TimeIntervalSet.Sort | cosmogrb/utils/time_interval.py:399-414 | `sort` returns a fresh set with the sorted contents |
| TimeIntervals.TimeIntervalSet.MergeIntersectingIntervals | cosmogrb/utils/time_interval.py:292-367 | in place: the set's contents become the merge of its sorted intervals; otherwise a fresh set holds it and this one is unchanged |
| TimeIntervals.TimeIntervalSet.Extend | cosmogrb/utils/time_interval.py:369-371 | the new intervals are appended |
| TimeIntervals.TimeIntervalSet.Pop | cosmogrb/utils/time_interval.py:395-397 | Python index rules: negative indices count from the end; the popped interval is returned and removed; out of range is an IndexError and changes nothing |
| TimeIntervals.TimeIntervalSet.Edges | cosmogrb/utils/time_interval.py:570-596 | as written: succeeds exactly for a sorted, contiguous set of at least two intervals; a sorted contiguous set of fewer raises TypeError (the single-index `itemgetter` call), any other set IntervalsNotContiguous; on success the result is the intended edges |
| TimeIntervals.TimeIntervalSet.EdgesIntended | cosmogrb/utils/time_interval.py:570-596 | the intended edges: defined exactly for a non-empty, sorted, contiguous set, and then the starts followed by the final stop, one more edge than intervals |
| TimeIntervals.TimeIntervalSet.EdgesOfOneIntervalFail | cosmogrb/utils/time_interval.py:580-589 | a set of one interval is sorted and contiguous, yet `edges` as written raises TypeError where its two ends are the intended edges |
| TimeIntervals.TimeIntervalSet.ShiftedBy | cosmogrb/utils/time_interval.py:620-645 | a fresh set whose intervals are the shifted intervals, in the same order |
| TimeIntervals.ShiftKeepsOrder | cosmogrb/utils/time_interval.py:620-645 | shifting a set leaves its argsort and its sortedness unchanged |
| Sorting.ArgsortSorts | cosmogrb/utils/time_interval.py:416-426 | the argsort is a permutation that orders the keys and keeps equal keys in their original order |
| Sorting.ArgsortIdentityIff | cosmogrb/utils/time_interval.py:441-448 | the argsort is the identity exactly when the keys are already non-decreasing |
| DeadTime.KeptMask | cosmogrb/lightcurve/gbm_lightcurve.py:72-107 | one flag per event, set exactly when the automaton records that event |
| DeadTime.GbmDeadTime | cosmogrb/lightcurve/gbm_lightcurve.py:72-107 | the three arrays have the input's length; the selection is the recorded-event mask; recorded slots copy time and channel, other slots hold zero |
| DeadTime.KeptMaskFirstAndLater | cosmogrb/lightcurve/gbm_lightcurve.py:83-102 | the first event is always recorded; a later one exactly when it arrives strictly after the current window end |
| DeadTime.WindowEndNeverDecreases | cosmogrb/lightcurve/gbm_lightcurve.py:97-105 | the window end never moves backwards |
| DeadTime.WindowMovesOnlyOnOverflow | cosmogrb/lightcurve/gbm_lightcurve.py:97-105 | the window moves exactly at a recorded channel-127 event, to its time plus 10.6 µs |
| DeadTime.KeptAfterOverflowWindow | cosmogrb/lightcurve/gbm_lightcurve.py:97-105 | every recorded event falls more than 10.6 µs after every earlier recorded channel-127 event |
| DeadTime.OrdinaryEventsDoNotRearm | cosmogrb/lightcurve/gbm_lightcurve.py:97-105 | two recorded ordinary events less than 2.6 µs apart |
| DeadTime.RearmedWindowEndNeverDecreases | cosmogrb/lightcurve/gbm_lightcurve.py:83-105 | with every recorded event re-arming the window, the window end still never moves backwards |
| DeadTime.RearmedKeptAreSeparated | cosmogrb/lightcurve/gbm_lightcurve.py:83-105 | with every recorded event re-arming the window, a recorded event comes strictly after the whole dead window of each earlier recorded one (10.6 µs after a channel-127 event, 2.6 µs after any other) |
| LightCurves.Combined | cosmogrb/lightcurve/lightcurve.py:89-99 | reading the channels along the time order is an IndexError exactly when there are fewer channels than times; on success both arrays hold background + source many entries |
| LightCurves.CombinedSortsEvents | cosmogrb/lightcurve/lightcurve.py:89-99 | the merged times are non-decreasing, and the (time, channel) pairs are the concatenated pairs reordered by a permutation |
| LightCurves.DeadTimeFiltered | cosmogrb/lightcurve/gbm_lightcurve.py:36-48 | fails with IndexError exactly on an empty stream |
| LightCurves.DeadTimeFilterKeepsPairs | cosmogrb/lightcurve/gbm_lightcurve.py:36-48 | the filtered pairs are the recorded subsequence of the input pairs; the first event is kept; time order is preserved; the count never grows |
| LightCurves.ProcessedEvents | cosmogrb/lightcurve/lightcurve.py:101-116 | without dead time every merged event survives; with it the run fails only when nothing was sampled, and keeps a time-ordered selection of the merged events |
| LightCurves.LightCurve.constructor | cosmogrb/lightcurve/lightcurve.py:5-48 | stores the collaborators and names; the event lists start empty |
| LightCurves.LightCurve.SourceOutcome | cosmogrb/lightcurve/lightcurve.py:50-76 | a successful source sample has one channel per photon |
| LightCurves.LightCurve.SampleSource | cosmogrb/lightcurve/lightcurve.py:50-76 | the three source lists become the source's times, propagated energies and digitised channels; a failure changes nothing; the other lists are untouched |
| LightCurves.LightCurve.SampleBackground | cosmogrb/lightcurve/lightcurve.py:78-87 | the background times are the constant-rate arrivals; then exactly one channel is drawn per time; a failing channel draw leaves the new times in place |
| LightCurves.LightCurve.Combine | cosmogrb/lightcurve/lightcurve.py:89-99 | times and channels become the merged, time-ordered lists; on an IndexError the times are already sorted and the channels are concatenated |
| LightCurves.LightCurve.FilterDeadTime | cosmogrb/lightcurve/lightcurve.py:156-158 | the plain light curve leaves times and channels unchanged; GBM (gbm_lightcurve.py:36-48) replaces them with the recorded events |
| LightCurves.LightCurve.Process | cosmogrb/lightcurve/lightcurve.py:101-116 | on success: source sampled, then background, then merged, then filtered, and the final lists are what `Processed` gives for the sampled lists |
| LegacyLightCurves.DetectedSourceEvents | cosmogrb/lightcurve.py:74-88 | a flag array of the wrong length is an IndexError; otherwise times and channels are filtered with the same flags |
| LegacyLightCurves.DetectedSourceEventsArePaired | cosmogrb/lightcurve.py:74-88 | flagged photons are kept with their own channels, in order; with all flags set nothing is lost |
| LegacyLightCurves.LegacyLightCurve.constructor | cosmogrb/lightcurve.py:11-54 | stores the background and names; event lists start empty |
| LegacyLightCurves.LegacyLightCurve.SampleSource | cosmogrb/lightcurve.py:56-88 | photons are stored first, then the flagged times, then the flagged channels; a wrong-length flag array stops at that point |
| LegacyLightCurves.LegacyLightCurve.SampleBackground | cosmogrb/lightcurve.py:90-95 | constant-rate background times, then one channel per time |
| LegacyLightCurves.LegacyLightCurve.Combine | cosmogrb/lightcurve.py:97-107 | background then source events, merged in time order, with channels moved alongside |
| LegacyLightCurves.LegacyLightCurve.FilterDeadTime | cosmogrb/lightcurve.py:134-136 | no-op for the base class; for GBM (lines 163-177) the events recorded by the dead-time automaton of lines 201-236 |
| LegacyLightCurves.LegacyLightCurve.Process | cosmogrb/lightcurve.py:109-124 | on success only flagged source events reach the final lists, merged with the background and filtered in order |
| Responses.PhotonBin | cosmogrb/response/response.py:128-130 | the left insertion point minus one, between -1 and the number of edges |
| Responses.PhotonBinBrackets | cosmogrb/response/response.py:128-130 | on sorted edges bin k holds exactly the energies in (edges[k], edges[k+1]]; -1 exactly at or below the lowest edge |
| Responses.NearestColumn | cosmogrb/response/response.py:21 | the first column whose cumulative value is nearest the draw |
| Responses.Digitize | cosmogrb/response/response.py:10-25 | the per-photon loop returns what `DigitizePrefix` gives for all photons |
| Responses.ErrorPersists | cosmogrb/response/response.py:10-25 | once a photon fails, the run fails with that error |
| Responses.DigitizeChannels | cosmogrb/response/response.py:10-25 | a successful run gives one channel per photon, each below the number of columns and equal to that photon's nearest-column pick |
| Responses.DigitizeSucceedsIff | cosmogrb/response/response.py:10-25 | the run succeeds exactly when every photon has a draw and lands in an existing, non-empty row |
| Responses.NormalizeRows | cosmogrb/response/response.py:144-151 | the in-place loop divides every positive-total row by its total and leaves the others |
| Responses.ConstructProbabilities | cosmogrb/response/response.py:132-157 | per-bin totals of matrix/area; rows with a positive total normalised; the probability and normalised matrices are one array; cumulative rows are their prefix sums |
| Responses.NormalizedRows | cosmogrb/response/response.py:144-151 | a positive-total row sums to one after normalisation; a zero row is unchanged |
| Responses.CumulativeRowsOfNonNegative | cosmogrb/response/response.py:156-157 | for a non-negative matrix each cumulative row is non-decreasing and ends at 1, or 0 for an empty-probability row |
| Responses.FloorNonPositive | cosmogrb/response/response.py:111-113 | non-positive effective areas become 1e-99; positive ones are kept |
| Responses.PeakRow | cosmogrb/response/response.py:117-118 | argmax over all rows but the last ten: the first maximum; ValueError with ten rows or fewer |
| Responses.NewResponse | cosmogrb/response/response.py:29-61 | empty edges give an IndexError, missing channel edges an AttributeError, too few rows a ValueError; on success widths, means, channels, emin/emax, the floored effective-area curve (lines 75-118), its peak energy and the probabilities |
| Responses.DigitizeWith | cosmogrb/response/response.py:159-175 | `digitize` is `_digitize` on the response's own edges and cumulative matrix |
| Responses.Convolve | cosmogrb/response/response.py:216-240 | a ValueError exactly when the lengths do not line up; otherwise one value per channel |
| Responses.ConvolveZeroesNonFinite | cosmogrb/response/response.py:235-236 | a non-finite flux contributes exactly what zero does |
| Responses.ConvolveUnitFlux | cosmogrb/response/response.py:238-240 | a unit flux in bin k folds to row k of the matrix |
| Reductions.CumSumOfNonNegative | cosmogrb/response/response.py:156-157 | the cumulative sum of non-negative entries is non-decreasing and ends at the total |
| Reductions.BinsOfIncreasingEdges | cosmogrb/response/response.py:41-53 | increasing edges give positive widths and mid-points strictly inside their bins |
| Samplers.SourcePoissonGenerator | cosmogrb/sampler/sampler_prototype.py:5-31 | the thinning loop returns `PoissonArrivals` for the given draws |
| Samplers.ThinnedIsKeptCandidates | cosmogrb/sampler/sampler_prototype.py:18-29 | the output is the in-order subsequence of the candidates before `tstop` whose test passes |
| Samplers.ThinnedBounds | cosmogrb/sampler/sampler_prototype.py:18-29 | every arrival is at most `tstop`; with positive steps they are strictly increasing |
| Samplers.PoissonArrivalsShape | cosmogrb/sampler/sampler_prototype.py:5-31 | the output starts with `tstart`, later arrivals are at most `tstop`, and it is strictly increasing for positive steps |
| Samplers.AllPassKeepsAll | cosmogrb/sampler/sampler_prototype.py:24-29 | when no test can fail every candidate is kept |
| Samplers.FirstAcceptedAccepts | cosmogrb/sampler/sampler_prototype.py:46-54 | the accepted value passes its test, and every earlier draw was rejected |
| Samplers.DrawUntilAccepted | cosmogrb/sampler/sampler_prototype.py:46-54 | the `while True` loop returns the first accepted proposal |
| Samplers.UniformInRange | cosmogrb/sampler/sampler_prototype.py:48-49 | a uniform draw lands in its range |
| Samplers.GridMax | cosmogrb/sampler/sampler_prototype.py:44 | the grid maximum is at least every grid value and is one of them; an empty grid is a ValueError |
| Samplers.DrawEvolution | cosmogrb/sampler/sampler_prototype.py:39-54 | one time of the loop is the grid bound followed by the accept loop |
| Samplers.EvolutionSampler | cosmogrb/sampler/sampler_prototype.py:34-56 | the loop returns `EvolutionFrom` from time 0 on N zeros |
| Samplers.EvolutionSamples | cosmogrb/sampler/sampler_prototype.py:34-56 | each filled slot holds a proposal in [emin, emax] that passed its test against the grid maximum at that time; other slots keep their zeros |
| Samplers.BumpedIndex | cosmogrb/sampler/sampler_prototype.py:101-102 | the index is never -1 afterwards and is unchanged otherwise |
| Samplers.EnvelopeScale | cosmogrb/sampler/sampler_prototype.py:89-95 | C is five times the largest grid value |
| Samplers.PlawDrawProposes | cosmogrb/sampler/sampler_prototype.py:104-119 | an accepted value is the power-law proposal of the last pair used and passes its test: u·C·(x / pivot)^index is at most the target at x and t, C being five times the grid peak and pivot the grid energy of the peak |
| Samplers.DrawPlaw | cosmogrb/sampler/sampler_prototype.py:89-119 | one slot is the envelope set-up followed by the accept loop |
| Samplers.DrawSlot | cosmogrb/sampler/sampler_prototype.py:81-119 | slot i reads `times[i]`, failing past the end, then draws |
| Samplers.PlawEvolutionSampler | cosmogrb/sampler/sampler_prototype.py:59-121 | the loop returns `PlawFrom` from slot 0 on N zeros |
| Samplers.PlawSamples | cosmogrb/sampler/sampler_prototype.py:59-121 | every slot holds a power-law proposal drawn from a consumed pair that passed the envelope test at that slot's time; the earlier slots are kept |
| Background.BackgroundPoissonGenerator | cosmogrb/sampler/background.py:13-44 | the loop returns `PoissonArrivals` with a constant flux and `fmax = rate` |
| Background.BackgroundKeepsEveryCandidate | cosmogrb/sampler/background.py:25-42 | with uniform tests every candidate before `tstop` is kept; the output starts at `tstart`, is bounded by `tstop`, and is strictly increasing for positive rate and steps |
| Background.TemplateChannels | cosmogrb/sampler/background.py:61-65 | channels 0..n-1, or 1..n with `start_at_one` |
| Background.NormalizeCounts | cosmogrb/sampler/background.py:69-78 | weights are counts / sum, present exactly when the sum is non-zero |
| Background.NewTemplate | cosmogrb/sampler/background.py:47-67 | the template keeps the counts, its channels and its normalised weights |
| Background.WeightsSumToOne | cosmogrb/sampler/background.py:69-78 | normalised weights sum to one |
| Background.WeightsNonNegative | cosmogrb/sampler/background.py:69-78 | non-negative counts give non-negative weights |
| Background.ChoiceIndexBrackets | cosmogrb/sampler/background.py:80-93 | the chosen slot is the one whose cumulative-weight interval holds the draw |
| Background.ChoiceIndexInRange | cosmogrb/sampler/background.py:80-93 | with weights summing to one, a draw in [0, 1) picks a real slot |
| Background.SampleTemplate | cosmogrb/sampler/background.py:80-93 | a successful sample has one channel per draw |
| Background.SampleTemplateChannels | cosmogrb/sampler/background.py:47-93 | zero total counts fail with ValueError; otherwise each draw gets the channel of its cumulative-weight slot |
| Background.BackgroundSampler.constructor | cosmogrb/sampler/background.py:115-134 | the rate is the one normal draw, fixed for the sampler's life |
| Background.BackgroundSampler.SampleTimes | cosmogrb/sampler/background.py:136-153 | every call runs the generator at the stored rate |
| Background.BackgroundSampler.ChannelsOutcome | cosmogrb/sampler/background.py:155-174 | a successful channel draw has one channel per draw |
| Background.BackgroundSampler.SampleChannel | cosmogrb/sampler/background.py:155-174 | NotImplementedError without a template; otherwise the template's sample |
| Reductions.Linspace | cosmogrb/sampler/source.py:104 | n evenly spaced points from a to b inclusive |
| Sources.TimeGrid | cosmogrb/sampler/source.py:102-104 | 50 points from `tstart` to `tstop` inclusive |
| Sources.EnergyIntegratedMaxBounds | cosmogrb/sampler/source.py:89-110 | the bound is at least the flux at every grid time and equals one of them |
| Sources.Propagate | cosmogrb/sampler/source.py:112-117 | one energy per photon |
| Sources.PropagateScales | cosmogrb/sampler/source.py:112-117 | each energy times (1+z) gives back the source-frame energy; a positive z lowers positive energies |
| Sources.Source.constructor | cosmogrb/sampler/source.py:23-47 | intended behaviour (as written construction raises AttributeError): the bound is computed only when the source function already has a response |
| Sources.Source.SetResponse | cosmogrb/sampler/source.py:81-87 | installs the response and recomputes the bound |
| Sources.Source.SampleTimes | cosmogrb/sampler/source.py:119-131 | the thinning loop under the stored bound; a never-computed bound is an AttributeError |
| Sources.Source.SamplePhotons | cosmogrb/sampler/source.py:133-139 | the sampled energies after propagation |
| Sources.Source.SampleChannel | cosmogrb/sampler/source.py:141-145 | the response's digitiser output, unchanged |
| LightCurveAnalyzers.OpenAnalyzer | cosmogrb/lightcurve/lightcurve_analyzer.py:11-31 | AssertionError exactly when the instruments differ; the hooks run exactly when there are source counts; without them the curve stays undetected |
| LightCurveAnalyzers.LightCurveAnalyzer.ExposureOfInterval | cosmogrb/lightcurve/lightcurve_analyzer.py:51-63 | as written every call is an AttributeError |
| LightCurveAnalyzers.ExposureOfIntervalAlwaysFails | cosmogrb/lightcurve/lightcurve_analyzer.py:51-63 | the call as written never returns the intended exposure |
| LightCurveAnalyzers.ExposurePlusDeadTime | cosmogrb/lightcurve/lightcurve_analyzer.py:46-63 | the intended exposure plus the dead time is the interval's length; it lies within [0, length] when the dead time does |
| LightCurveStorages.SelectChannel | cosmogrb/lightcurve/light_curve_storage.py:112-130 | a lower energy is a NameError; no bounds return the mask; an upper energy ANDs the mask with pha below its insertion point |
| LightCurveStorages.SelectChannelIntended | cosmogrb/lightcurve/light_curve_storage.py:112-130 | the filter with the name corrected: mask AND pha above the lower insertion point AND pha below the upper one |
| LightCurveStorages.SelectChannelLowerBoundFails | cosmogrb/lightcurve/light_curve_storage.py:114-120 | even a lower energy of zero fails as written, while the intended filter succeeds |
| LightCurveStorages.SelectChannelAgreesWithoutLowerBound | cosmogrb/lightcurve/light_curve_storage.py:122-130 | without a lower energy the code as written and the intended filter agree |
| LightCurveStorages.SelectChannelOnlyNarrows | cosmogrb/lightcurve/light_curve_storage.py:120-128 | a kept event was flagged before, and filtering twice changes nothing |
| LightCurveStorages.ChannelBoundsAsEnergies | cosmogrb/lightcurve/light_curve_storage.py:116-126 | on sorted bounds, "below the upper insertion point" means the channel's bound is below the energy |
| GrbDetectors.SplitJoin | cosmogrb/grb/grb_detector.py:35 | joining the pieces of a split gives the string back |
| GrbDetectors.SplitSingleIff | cosmogrb/grb/grb_detector.py:35 | a split has one piece exactly when the separator is absent |
| GrbDetectors.OutFileNameStripsLastExtension | cosmogrb/grb/grb_detector.py:35-37 | the output name is everything before the last dot, followed by `_detection_info.h5` |
| GrbDetectors.OutFileNameWithoutDot | cosmogrb/grb/grb_detector.py:35-37 | a name without a dot gives just `_detection_info.h5` |
| GrbDetectors.OutFileNameExample | cosmogrb/grb/grb_detector.py:35-37 | `a.b.h5` becomes `a.b_detection_info.h5` |
| GrbDetectors.GrbDetector.constructor | cosmogrb/grb/grb_detector.py:31-39 | intended behaviour (as written construction raises AttributeError): undetected, empty extra information, the derived output name |
| GrbDetectors.OpenDetector | cosmogrb/grb/grb_detector.py:10-39 | intended behaviour (as written construction raises AttributeError): AssertionError exactly when some light curve was made for another instrument; otherwise a fresh, undetected detector |
| GbmTriggers.OrderByDistanceSorted | cosmogrb/instruments/gbm/gbm_trigger.py:51-79 | the order is the NaI detectors rearranged by a permutation into non-decreasing angle; nothing else is in it |
| GbmTriggers.TriggerRecords | cosmogrb/instruments/gbm/gbm_trigger.py:128-172 | the three lists grow in lockstep, by one entry per trigger, with what the analysis found; the loop ends on one of its three exit conditions |
| GbmTriggers.TriggerDetects | cosmogrb/instruments/gbm/gbm_trigger.py:144-168 | a detection needs two triggers; the last recorded time is within the window of an earlier one; its detector was the last one tested |
| GbmTriggers.FreshTriggerRun | cosmogrb/instruments/gbm/gbm_trigger.py:128-172 | from a fresh trigger: equal-length lists, at most min(len, max_n_dets) detectors tested, detection only with two triggers |
| GbmTriggers.TriggeredAtMostTested | cosmogrb/instruments/gbm/gbm_trigger.py:128-172 | no more triggers than detectors tested |
| GbmTriggers.TwoCloseTriggersDetect | cosmogrb/instruments/gbm/gbm_trigger.py:128-172 | two triggers 0.5 s apart with a 0.5 s window detect, and the third detector is never looked at |
| GbmTriggers.GbmTrigger.constructor | cosmogrb/instruments/gbm/gbm_trigger.py:14-49 | intended behaviour (as written construction raises AttributeError): the settings, the detector order and three empty lists |
| GbmTriggers.GbmTrigger.CheckSimultaneous | cosmogrb/instruments/gbm/gbm_trigger.py:93-116 | true exactly when some recorded time t' has t'-w ≤ t ≤ t'+w |
| GbmTriggers.GbmTrigger.Process | cosmogrb/instruments/gbm/gbm_trigger.py:118-180 | verdict and lists are those of the trigger run; the three lists are copied into the extra information |
| GbmTriggers.OpenTrigger | cosmogrb/instruments/gbm/gbm_trigger.py:14-49 | intended behaviour (as written construction raises AttributeError): the detector base for "GBM" (failing for other instruments), undetected, with the angle order and empty lists |
| Meta.AfterGet | cosmogrb/utils/meta.py:14-23 | after a read the key holds the returned value; other keys are unchanged; nothing else is added |
| Meta.GetIsStable | cosmogrb/utils/meta.py:14-23 | a second read returns the same value and changes nothing |
| Meta.CheckBounds | cosmogrb/utils/meta.py:25-36 | a failed check is an AssertionError or a TypeError |
| Meta.CheckBoundsIff | cosmogrb/utils/meta.py:25-36 | a number passes exactly when within the given bounds; None only without bounds; strings always |
| Meta.SetThenGet | cosmogrb/utils/meta.py:25-38 | a read after a write returns the written value |
| Meta.ParameterDicts.constructor | cosmogrb/grb/grb.py:47-48 | both dictionaries start empty |
| Meta.ParameterDicts.Get | cosmogrb/utils/meta.py:14-23 | returns the stored value or the default, storing the default; the other dictionary is untouched |
| Meta.ParameterDicts.Set | cosmogrb/utils/meta.py:25-50 | the outcome is the bound check; on success only this key of this kind's dictionary changes; on failure nothing changes |
| Meta.DeclaredNames | cosmogrb/utils/meta.py:76-84 | never more names than attributes |
| Meta.DeclaredNamesMembership | cosmogrb/utils/meta.py:76-84 | a name is listed exactly when an attribute of that kind carries it |
| Meta.DeclareParameters | cosmogrb/utils/meta.py:54-86 | fresh lists filled in declaration order per kind; the descriptors are exactly those of the parameter attributes, in declaration order, one per declared name, each named after its attribute |
| Meta.DescriptorsCover | cosmogrb/utils/meta.py:74-86 | there are as many descriptors as declared source and required names together, and each is the descriptor of one of the class's attributes |
| Grbs.GrbDeclarations | cosmogrb/grb/grb.py:26-31 | the GRB body declares six required parameters in order and no source parameters |
| Grbs.RoutedKeys | cosmogrb/grb/grb.py:61-80 | a keyword lands in a dictionary exactly when its name is accepted (and, for required ones, not already a source name); with distinct keys it holds the passed value |
| Grbs.RoutingSkipsBounds | cosmogrb/grb/grb.py:61-80 | a routed z = 50 is stored although the descriptor's bound check would refuse it |
| Grbs.Put | cosmogrb/grb/grb.py:93-116 | the key maps to the new value, other entries are kept, and the key order is kept |
| Grbs.PutOverwrites | cosmogrb/grb/grb.py:93-116 | re-adding a name overwrites its entry without adding a key |
| Grbs.RequiredCheck | cosmogrb/grb/grb.py:174-177 | a missing name is a KeyError, a None value an AssertionError |
| Grbs.RequiredCheckIff | cosmogrb/grb/grb.py:174-177 | succeeds exactly when every required name is present and not None |
| Grbs.Positive | cosmogrb/grb/grb.py:179-182 | positive numbers pass; non-positive numbers are an AssertionError; other values a TypeError |
| Grbs.AfterLogging | cosmogrb/grb/grb.py:184-189 | the six logged reads store their defaults where missing and change nothing else |
| Grbs.GoValidationIff | cosmogrb/grb/grb.py:174-189 | `go` validates exactly when every required name is set, z > 0 and duration > 0 |
| Grbs.UnsetGrbCannotGo | cosmogrb/grb/grb.py:174-177 | the base GRB cannot be built, so this concerns a subclass that redeclares its six required parameters: built with none set, it fails `go` with KeyError |
| Grbs.SubclassGoUsesDefaults | cosmogrb/utils/meta.py:56-57 | a subclass that declares no parameters of its own validates, storing the six defaults |
| Grbs.StoreResultsStoresByName | cosmogrb/grb/grb.py:219-223 | each result is stored under its own light curve's name |
| Grbs.StoreResultsFailurePersists | cosmogrb/grb/grb.py:219-223 | a result for an unknown light curve fails the store |
| Grbs.Grb.constructor | cosmogrb/grb/grb.py:33-86 | the name lists, empty dictionaries of light curves, responses and backgrounds |
| Grbs.Grb.AddBackground | cosmogrb/grb/grb.py:93-95 | the background is put under its name |
| Grbs.Grb.AddResponse | cosmogrb/grb/grb.py:97-101 | the response is put under its name |
| Grbs.Grb.AddLightCurve | cosmogrb/grb/grb.py:103-116 | the light curve is put under its own name |
| Grbs.CheckRequiredNames | cosmogrb/grb/grb.py:174-177 | the loop over the required names returns what `RequiredCheck` gives: the first missing name a KeyError, the first None an AssertionError |
| Grbs.Grb.StoreAll | cosmogrb/grb/grb.py:219-223 | the storages after the loop, and whether it finished, are those `StoreResults` gives; the dictionaries are untouched |
| Grbs.Grb.Go | cosmogrb/grb/grb.py:172-223 | the required dictionary and the error cases are those of the validation; on success each result is stored by name |
| Grbs.OpenGrb | cosmogrb/grb/grb.py:33-86 | TypeError for a class that leaves the abstract `_setup` unimplemented (the base GRB); else AssertionError for a source that is not a source function; otherwise the keywords are routed into the two dictionaries |

## Left out

- Plotting and the `display_*` methods are not part of this model. They are matplotlib UI.
- The FITS and HDF5 I/O is not part of this model: `write_tte`, `GRB.save`, `GRBDetector.save` and reading a `GRBSave` from disk. The loaded record is passed in as a value.
- The dask `client.map` path and the serial path of `GRB.go` are not part of this model. The per-light-curve `process_lightcurve` results are passed in.
- Random number generation and reseeding are not modelled. Draws are input sequences.
- `Background`'s normal rate draw is an input.
- `np.random.choice` is modelled by its cumulative-weight slot rule.
- Floating point is not modelled, and reals are exact.
  - Samplers.BumpedIndex: moves -1 off the pole. In doubles -1 + 1e-20 rounds back to -1.0, which this model does not reproduce.
  - TimeIntervals.TimeIntervalSet.Edges: uses exact equality for contiguity in place of numpy's `allclose` tolerance in `is_contiguous`.
  - `_detection_probability` in the response (exp-based, unused by the digitiser) is not part of this model.
  - The power function in the power-law sampler is an uninterpreted input.
- Sorting.ArgsortSorts: numpy's default `argsort` (quicksort) is not stable. The model uses one stable argsort, and contracts at numpy call sites (`LightCurves.CombinedSortsEvents`, `GbmTriggers.OrderByDistanceSorted`) claim only a sorting permutation.
- Responses.Digitize: a bin beyond the matrix is an IndexError; numba would read out of bounds. Bin -1 reads the last row, as negative indexing does.
- Responses.NewResponse: models the construction with the effective-area interpolant repaired. As written, `_build_effective_area_curve` (cosmogrb/response/response.py:86-91) passes four arguments to `Interp1D`, whose constructor takes two (cosmogrb/utils/interpolation.py:6). So every `Response(...)` raises TypeError once the matrix is summed. The model keeps the floored curve values, and the interpolant itself is not part of this model.
- Every Python loop that draws until acceptance is unbounded. The model stops with `OutOfDraws` when its finite draw sequence runs out.
- The energy samplers of the source function are abstract. Their output is an input function of the arrival times.
- `TimeIntervalSet.containing_bin`, `containing_interval`, `from_list_of_edges`, the list views (`starts`, `stops`, `widths`, …) and `bin_stack` are not part of this model.
- The older light curve's source object is not part of this model (its module does not import). What it returns for one run is passed in.
- LightCurveAnalyzers.OpenAnalyzer: the light curve's instrument and source-count total are inputs beside the storage, and the hooks' detection verdict is an input. The hooks are abstract, and `GBMLightCurveAnalyzer` is not part of this model.
- Sources.Source.constructor: models the intended constructor. As written it cannot succeed. `Source.__init__` hands itself to `set_source` (cosmogrb/sampler/source.py:41), which reads `source.z` (cosmogrb/sampler/source_function.py:44), but neither `Source` nor `Sampler` defines `z`, only `_z`, so every construction raises AttributeError. Both call sites also omit the positional `z`, a TypeError even earlier (cosmogrb/instruments/gbm/gbm_grb.py:71-76, cosmogrb/grb/gbm_grb.py:75). The model's branch for a source function without a response cannot occur in the source, since `SourceFunction.__init__` reads `response.emin` (cosmogrb/sampler/source_function.py:25) and both call sites pass a response.
- GrbDetectors.GrbDetector.constructor: models the intended constructor. As written, `GRBDetector.__init__` calls `self._grb_save.items()` (cosmogrb/grb/grb_detector.py:25), which `GRBSave` does not define (cosmogrb/io/grb_save.py:6-88), so it raises AttributeError. The `instrument` that `SavedDetector` carries stands for `v["lightcurve"].instrument` (grb_detector.py:28), an attribute `LightCurveStorage` does not have.
- GrbDetectors.OpenDetector: models the intended instrument check. As written, construction stops with AttributeError at `.items()` or `.instrument` (cosmogrb/grb/grb_detector.py:25-28), so neither the AssertionError nor a detector is ever returned.
- GbmTriggers.GbmTrigger.constructor: models the intended detector ordering. As written, `_setup_order_by_distance` calls `.items()` and reads `lc.extra_info["angle"]` (cosmogrb/instruments/gbm/gbm_trigger.py:61-68), neither of which `GRBSave` and `LightCurveStorage` provide, so it raises AttributeError. The `angle` that `SavedDetector` carries stands for that entry.
- GbmTriggers.OpenTrigger: models the intended construction. As written, the detector base (cosmogrb/grb/grb_detector.py:25) and then the ordering (cosmogrb/instruments/gbm/gbm_trigger.py:61-68) raise AttributeError, so no trigger is ever built.
- LightCurveAnalyzers.OpenAnalyzer: models the intended analyser, which the code as written cannot reach. `cosmogrb/lightcurve/lightcurve_analyzer.py:1` takes `abc` from `collections`, and line 10 asks it for `ABCMeta`, which `collections.abc` does not provide, so importing the module raises AttributeError. `LightCurveStorage` also has no `instrument` or `n_counts_source` attribute (read at lines 16 and 23), so each read would raise AttributeError.
- GbmTriggers.GbmTrigger.Process: models the intended trigger loop. As written, cosmogrb/instruments/gbm/gbm_trigger.py:140-142 passes `threshold=` to `GBMLightCurveAnalyzer`, whose constructor takes only `lightcurve` (cosmogrb/instruments/gbm/gbm_lightcurve_analyzer.py:10). So a run that tests at least one light curve raises TypeError on the first analyser it builds.
- Meta.DeclareParameters: `GRBMeta.__subclasscheck__` is not part of this model. It relies on a cache attribute the metaclass does not have.
- Grbs.OpenGrb: two booleans are inputs: whether the class implements the abstract `_setup`, which `GRBMeta` records in `__abstractmethods__` (cosmogrb/utils/meta.py:62-72), and whether `issubclass(source_function_class, SourceFunction)` holds. The hook itself is not run. A false `issubclass` gives AssertionError; the default `source_function_class=None` (cosmogrb/grb/grb.py:35) would instead make `issubclass` raise TypeError, a case the model does not separate.
- LightCurves.DeadTimeFiltered: an empty event stream is reported as IndexError. The numba-compiled `_gbm_dead_time` (cosmogrb/lightcurve/gbm_lightcurve.py:72-85) does no bounds check and would read past its empty arrays instead. `LegacyLightCurves.LegacyLightCurve.FilterDeadTime` makes the same choice. `LightCurves.LightCurve.Process` never reaches the case: background arrivals always start with `tstart` (`Samplers.PoissonArrivalsShape`), so the stream it filters is never empty.
- Sources.Propagate, Sources.PropagateScales, Sources.Source.SamplePhotons, LightCurves.LightCurve.SourceOutcome, LightCurves.LightCurve.SampleSource and LightCurves.LightCurve.Process: require `1 + z != 0`. The source divides a numpy array by `1 + z`, which would give inf rather than fail. `GRB` bounds `z` to [0, 20] (cosmogrb/grb/grb.py:26), so the divisor is at least 1.
- Responses.DivideAll, Responses.ConstructProbabilities and Responses.NewResponse: require a non-zero geometric area. The source divides the matrix by it (cosmogrb/response/response.py:134), which would give inf or nan rather than fail. A detector's geometric area is positive.
- Grbs.Grb.Go: `set_storage` on each light curve is modelled as a map from light-curve name to stored result on the GRB.
- `np.logical_and` broadcasting is not modelled. Masks of different lengths are a ValueError.
- `LightCurveStorage` accessors return constructor fields; the datatype's fields stand for them.

## Findings

| source | as written | input that shows it | evidently intended | confidence | as-written member | corrected member |
|---|---|---|---|---|---|---|
| cosmogrb/utils/time_interval.py:292-367 | each pass merges a popped interval with its next neighbour only, so an interval covering several later ones absorbs just the first | [0,10], [1,2], [3,4], [5,6] gives [0,10], [3,4], [5,6], which still overlap | the documented merge into pairwise non-overlapping intervals | medium, not executed | TimeIntervals.MergeOutputMayOverlap | TimeIntervals.MergeSweepDisjoint |
| cosmogrb/lightcurve/gbm_lightcurve.py:97-105 | after the first event only recorded channel-127 events re-arm the dead window; `t_end_par` is never used | events at 0, 3 and 4 µs in channel 0 are all recorded, the last within 2.6 µs of the one before | every recorded event opens its own dead window (2.6 µs, or 10.6 µs in channel 127) | medium, not executed | DeadTime.OrdinaryEventsDoNotRearm | DeadTime.RearmedKeptAreSeparated |
| cosmogrb/lightcurve/light_curve_storage.py:112-130 | with `emin` given the code reads `orginal_idx`, a name that is never bound | any `emin`, e.g. 0.0 | AND the mask argument with `pha > chan` | high, not executed | LightCurveStorages.SelectChannelLowerBoundFails | LightCurveStorages.SelectChannelIntended |
| cosmogrb/lightcurve/lightcurve_analyzer.py:51-63 | `exposure_of_interval` calls `dead_time_per_interval`, which no class defines | any call | subtract `dead_time_of_interval(tmax, tmin)` from the interval's length | high, not executed | LightCurveAnalyzers.ExposureOfIntervalAlwaysFails | LightCurveAnalyzers.ExposurePlusDeadTime |
| cosmogrb/utils/time_interval.py:580-589 | `itemgetter(*self.argsort())` with a single index returns the interval itself rather than a tuple, so the comprehension cannot iterate it; with no index `itemgetter()` itself raises | a set holding the one interval [0, 1] | the edges [0, 1] | high, not executed | TimeIntervals.TimeIntervalSet.EdgesOfOneIntervalFail | TimeIntervals.TimeIntervalSet.EdgesIntended |
