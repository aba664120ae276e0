/** The light-curve container of cosmogrb/lightcurve/light_curve_storage.py:
    a record of one detector's events, split into source and background,
    with the channel energy bounds, and the channel filter its displays use.
    The filter as written fails whenever a lower energy is given, because
    it reads a misspelt mask name; `SelectChannelIntended` is the filter
    with the name corrected. */
module LightCurveStorages {
  import opened Common
  import opened Sorting
  import opened Selection
  import opened Reductions

  /** `LightCurveStorage(...)`: every accessor returns the constructor
      argument of the same name unchanged, which the datatype's fields give
      directly. */
  datatype LightCurveStorage = LightCurveStorage(
    name: string,
    tstart: real,
    tstop: real,
    timeAdjustment: real,
    pha: seq<int>,
    times: seq<real>,
    phaSource: seq<int>,
    timesSource: seq<real>,
    phaBackground: seq<int>,
    timesBackground: seq<real>,
    channels: seq<int>,
    ebounds: seq<real>,
    t0: real)

  /** The flags of `pha > chan`. */
  function Above(pha: seq<int>, chan: int): (m: seq<bool>)
    ensures |m| == |pha| && forall i :: 0 <= i < |pha| ==> (m[i] <==> pha[i] > chan)
  {
    seq(|pha|, i requires 0 <= i < |pha| => pha[i] > chan)
  }

  /** The flags of `pha < chan`. */
  function Below(pha: seq<int>, chan: int): (m: seq<bool>)
    ensures |m| == |pha| && forall i :: 0 <= i < |pha| ==> (m[i] <==> pha[i] < chan)
  {
    seq(|pha|, i requires 0 <= i < |pha| => pha[i] < chan)
  }

  /** `_select_channel(emin, emax, pha, original_idx)` as written. With a
      lower energy the code reads `orginal_idx`, a name that is never bound,
      so it raises NameError. An upper energy keeps the flagged events whose
      channel lies below the upper energy's insertion point in the bounds.
      Masks of different lengths cannot be combined. */
  function SelectChannel(s: LightCurveStorage, emin: Option<real>, emax: Option<real>,
                         pha: seq<int>, mask: seq<bool>): (r: Result<seq<bool>>)
    ensures emin.Some? ==> r == Err(NameError)
    ensures emin.None? && emax.None? ==> r == Ok(mask)
    ensures emin.None? && emax.Some? ==>
              (r.Ok? <==> |pha| == |mask|) && (r.Err? ==> r.error == ValueError) &&
              (r.Ok? ==> |r.value| == |mask| &&
                         forall i :: 0 <= i < |mask| ==>
                           (r.value[i] <==> mask[i] && pha[i] < SearchSortedLeft(s.ebounds, emax.value)))
  {
    if emin.Some? then Err(NameError)
    else if emax.None? then Ok(mask)
    else if |pha| != |mask| then Err(ValueError)
    else Ok(And(mask, Below(pha, SearchSortedLeft(s.ebounds, emax.value))))
  }

  /** `_select_channel` with the misspelt name read as the mask argument:
      a lower energy keeps the channels above its insertion point, an upper
      energy the channels below its insertion point. */
  function SelectChannelIntended(s: LightCurveStorage, emin: Option<real>, emax: Option<real>,
                                 pha: seq<int>, mask: seq<bool>): (r: Result<seq<bool>>)
    ensures (r.Ok? <==> (emin.None? && emax.None?) || |pha| == |mask|)
    ensures r.Err? ==> r.error == ValueError
    ensures r.Ok? ==>
              |r.value| == |mask| &&
              forall i :: 0 <= i < |mask| ==>
                (r.value[i] <==> mask[i] &&
                                 (emin.Some? ==> pha[i] > SearchSortedLeft(s.ebounds, emin.value)) &&
                                 (emax.Some? ==> pha[i] < SearchSortedLeft(s.ebounds, emax.value)))
  {
    if emin.None? && emax.None? then Ok(mask)
    else if |pha| != |mask| then Err(ValueError)
    else
      var lo := if emin.Some? then And(mask, Above(pha, SearchSortedLeft(s.ebounds, emin.value))) else mask;
      if emax.Some? then Ok(And(lo, Below(pha, SearchSortedLeft(s.ebounds, emax.value)))) else Ok(lo)
  }

  /** Any lower energy makes the filter as written fail, even one below
      every bound that would keep every channel. */
  lemma SelectChannelLowerBoundFails(s: LightCurveStorage, pha: seq<int>, mask: seq<bool>)
    requires |pha| == |mask|
    ensures SelectChannel(s, Some(0.0), None, pha, mask) == Err(NameError)
    ensures SelectChannelIntended(s, Some(0.0), None, pha, mask).Ok?
  {
  }

  /** Without a lower energy the filter as written and the intended one
      agree. */
  lemma SelectChannelAgreesWithoutLowerBound(s: LightCurveStorage, emax: Option<real>, pha: seq<int>, mask: seq<bool>)
    ensures SelectChannel(s, None, emax, pha, mask) == SelectChannelIntended(s, None, emax, pha, mask)
  {
  }

  /** The filter only removes events: a kept event was already flagged, so
      filtering a second time with the same bounds changes nothing. */
  lemma SelectChannelOnlyNarrows(s: LightCurveStorage, emin: Option<real>, emax: Option<real>,
                                 pha: seq<int>, mask: seq<bool>)
    requires SelectChannelIntended(s, emin, emax, pha, mask).Ok?
    ensures var m := SelectChannelIntended(s, emin, emax, pha, mask).value;
            (forall i :: 0 <= i < |mask| && m[i] ==> mask[i]) &&
            SelectChannelIntended(s, emin, emax, pha, m) == Ok(m)
  {
    var m := SelectChannelIntended(s, emin, emax, pha, mask).value;
    var r2 := SelectChannelIntended(s, emin, emax, pha, m);
    assert r2.Ok?;
    assert forall i :: 0 <= i < |m| ==> r2.value[i] == m[i];
    assert r2.value == m;
  }

  /** On sorted energy bounds, a channel lies below the upper energy's
      insertion point exactly when its bound is below that energy, and
      above the lower energy's insertion point exactly when the bound
      before it is at least that energy. */
  lemma ChannelBoundsAsEnergies(ebounds: seq<real>, e: real, c: nat)
    requires NonDecreasing(ebounds) && c < |ebounds|
    ensures c < SearchSortedLeft(ebounds, e) <==> ebounds[c] < e
    ensures c > 0 ==> (c > SearchSortedLeft(ebounds, e) <==> ebounds[c - 1] >= e)
  {
    SearchSortedLeftSplits(ebounds, e);
  }
}
