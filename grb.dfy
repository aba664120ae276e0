/** The burst of cosmogrb/grb/grb.py: its six required parameters, the
    routing of constructor keywords into the two parameter dictionaries, the
    per-name registries of light curves, responses and backgrounds, and the
    checks `go` makes before it runs the light curves and stores each
    result under the name of the light curve that produced it. */
module Grbs {
  import opened Common
  import opened Meta
  import opened Responses
  import opened Background
  import opened LightCurves
  import opened LightCurveStorages

  // ---------------------------------------------------------------------
  // The declared required parameters

  const NameParam: Parameter := Parameter("name", RequiredKind, Str("SynthGRB"), None, None)
  const ZParam: Parameter := Parameter("z", RequiredKind, Num(1.0), Some(0.0), Some(20.0))
  const TZeroParam: Parameter := Parameter("T0", RequiredKind, Num(0.0), None, None)
  const RaParam: Parameter := Parameter("ra", RequiredKind, Num(0.0), Some(0.0), Some(360.0))
  const DecParam: Parameter := Parameter("dec", RequiredKind, Num(0.0), Some(-90.0), Some(90.0))
  const DurationParam: Parameter := Parameter("duration", RequiredKind, Num(1.0), Some(0.0), None)

  /** The parameter attributes of the `GRB` class body, in order. */
  const GrbBody: seq<(string, Attr)> := [
    ("name", RequiredAttr(Str("SynthGRB"), None, None)),
    ("z", RequiredAttr(Num(1.0), Some(0.0), Some(20.0))),
    ("T0", RequiredAttr(Num(0.0), None, None)),
    ("ra", RequiredAttr(Num(0.0), Some(0.0), Some(360.0))),
    ("dec", RequiredAttr(Num(0.0), Some(-90.0), Some(90.0))),
    ("duration", RequiredAttr(Num(1.0), Some(0.0), None))
  ]

  const GrbRequiredNames: seq<string> := ["name", "z", "T0", "ra", "dec", "duration"]

  /** The metaclass lists the six names in declaration order, declares no
      source parameter, and turns each attribute into the descriptor of the
      same name. */
  lemma GrbDeclarations()
    ensures DeclaredNames(GrbBody, RequiredKind) == GrbRequiredNames
    ensures DeclaredNames(GrbBody, SourceKind) == []
    ensures Describe(GrbBody[0].0, GrbBody[0].1) == Some(NameParam)
    ensures Describe(GrbBody[1].0, GrbBody[1].1) == Some(ZParam)
    ensures Describe(GrbBody[2].0, GrbBody[2].1) == Some(TZeroParam)
    ensures Describe(GrbBody[3].0, GrbBody[3].1) == Some(RaParam)
    ensures Describe(GrbBody[4].0, GrbBody[4].1) == Some(DecParam)
    ensures Describe(GrbBody[5].0, GrbBody[5].1) == Some(DurationParam)
  {
    var b := GrbBody;
    forall kind: Kind
      ensures DeclaredNames(b, kind) ==
              if kind.RequiredKind? then GrbRequiredNames else []
    {
      DeclaredNamesAppend([], b[0], kind);
      assert [] + [b[0]] == b[..1];
      DeclaredNamesAppend(b[..1], b[1], kind);
      assert b[..1] + [b[1]] == b[..2];
      DeclaredNamesAppend(b[..2], b[2], kind);
      assert b[..2] + [b[2]] == b[..3];
      DeclaredNamesAppend(b[..3], b[3], kind);
      assert b[..3] + [b[3]] == b[..4];
      DeclaredNamesAppend(b[..4], b[4], kind);
      assert b[..4] + [b[4]] == b[..5];
      DeclaredNamesAppend(b[..5], b[5], kind);
      assert b[..5] + [b[5]] == b;
    }
  }

  // ---------------------------------------------------------------------
  // Keyword routing in the constructor

  /** The dictionary the keyword loop fills: every keyword whose name is in
      `accept` and not in `reject` is written straight into it, later
      keywords over earlier ones. */
  function Routed(kwargs: seq<(string, Value)>, accept: seq<string>, reject: seq<string>): map<string, Value>
  {
    if kwargs == [] then map[]
    else
      var d := Routed(kwargs[..|kwargs| - 1], accept, reject);
      var kv := kwargs[|kwargs| - 1];
      if kv.0 in accept && kv.0 !in reject then d[kv.0 := kv.1] else d
  }

  predicate DistinctKeys(kwargs: seq<(string, Value)>)
  {
    forall i, j :: 0 <= i < j < |kwargs| ==> kwargs[i].0 != kwargs[j].0
  }

  /** A name ends up in the dictionary exactly when it was passed and is
      accepted; with distinct keywords (a Python `**kwargs` dict) it holds
      the value passed for it. Anything else is dropped. */
  lemma {:induction false} RoutedKeys(kwargs: seq<(string, Value)>, accept: seq<string>, reject: seq<string>, k: string)
    ensures k in Routed(kwargs, accept, reject) <==>
            k in accept && k !in reject && exists i :: 0 <= i < |kwargs| && kwargs[i].0 == k
    ensures DistinctKeys(kwargs) ==>
              forall i :: 0 <= i < |kwargs| && kwargs[i].0 == k && k in accept && k !in reject ==>
                Routed(kwargs, accept, reject)[k] == kwargs[i].1
  {
    if kwargs != [] {
      var init := kwargs[..|kwargs| - 1];
      RoutedKeys(init, accept, reject, k);
      if exists i :: 0 <= i < |kwargs| && kwargs[i].0 == k {
        var i :| 0 <= i < |kwargs| && kwargs[i].0 == k;
        if i < |kwargs| - 1 {
          assert init[i] == kwargs[i];
        }
      }
      if exists i :: 0 <= i < |init| && init[i].0 == k {
        var i :| 0 <= i < |init| && init[i].0 == k;
        assert kwargs[i] == init[i];
      }
      if DistinctKeys(kwargs) {
        assert DistinctKeys(init) by {
          forall i, j | 0 <= i < j < |init| ensures init[i].0 != init[j].0 {
            assert init[i] == kwargs[i] && init[j] == kwargs[j];
          }
        }
        forall i | 0 <= i < |kwargs| && kwargs[i].0 == k && k in accept && k !in reject
          ensures Routed(kwargs, accept, reject)[k] == kwargs[i].1
        {
          if i < |kwargs| - 1 {
            assert init[i] == kwargs[i];
          }
        }
      }
    }
  }

  /** Routing does not apply the descriptors' bounds: `z=50` reaches the
      dictionary although setting it through the descriptor is refused. */
  lemma RoutingSkipsBounds()
    ensures Routed([("z", Num(50.0))], GrbRequiredNames, []) == map["z" := Num(50.0)]
    ensures CheckBounds(ZParam, Num(50.0)) == Err(AssertionError)
  {
    assert [("z", Num(50.0))][..0] == [];
  }

  // ---------------------------------------------------------------------
  // Name-keyed ordered dictionaries

  /** A `collections.OrderedDict` keyed by name: the keys in insertion
      order and the entries. */
  datatype OrderedDict<V> = OrderedDict(keys: seq<string>, entries: map<string, V>)
  {
    ghost predicate Valid()
    {
      (forall i, j :: 0 <= i < j < |keys| ==> keys[i] != keys[j]) &&
      (forall k :: k in entries <==> k in keys)
    }
  }

  function EmptyDict<V>(): (d: OrderedDict<V>)
    ensures d.Valid() && d.keys == []
  {
    OrderedDict([], map[])
  }

  /** `d[k] = v`: a new key goes to the end, an existing key keeps its
      place and gets the new value. */
  function Put<V>(d: OrderedDict<V>, k: string, v: V): (r: OrderedDict<V>)
    requires d.Valid()
    ensures r.Valid()
    ensures k in r.entries && r.entries[k] == v
    ensures forall x :: x in d.entries && x != k ==> x in r.entries && r.entries[x] == d.entries[x]
  {
    if k in d.entries then OrderedDict(d.keys, d.entries[k := v])
    else OrderedDict(d.keys + [k], d.entries[k := v])
  }

  /** Re-adding under a name overwrites: the order and the number of
      entries stay, and the last value wins. */
  lemma PutOverwrites<V>(d: OrderedDict<V>, k: string, v1: V, v2: V)
    requires d.Valid()
    ensures Put(Put(d, k, v1), k, v2) == Put(d, k, v2)
    ensures k in d.entries ==> Put(d, k, v2).keys == d.keys
    ensures k !in d.entries ==> Put(d, k, v2).keys == d.keys + [k]
  {
  }

  // ---------------------------------------------------------------------
  // The checks of `go`

  /** The loop over `_required_names`: KeyError for the first name never
      set or read, AssertionError for the first name holding None. */
  function RequiredCheck(names: seq<string>, d: map<string, Value>): (r: Result<()>)
    ensures r.Err? ==> r.error == KeyError || r.error == AssertionError
  {
    if names == [] then Ok(())
    else if names[0] !in d then Err(KeyError)
    else if d[names[0]].NoneValue? then Err(AssertionError)
    else RequiredCheck(names[1..], d)
  }

  /** The loop passes exactly when every listed name holds a value other
      than None, and a name that is missing before any None fails it with
      KeyError. */
  lemma {:induction false} RequiredCheckIff(names: seq<string>, d: map<string, Value>)
    ensures RequiredCheck(names, d).Ok? <==>
            forall i :: 0 <= i < |names| ==> names[i] in d && !d[names[i]].NoneValue?
    ensures (exists i :: 0 <= i < |names| && names[i] !in d &&
               forall j :: 0 <= j < i ==> names[j] in d && !d[names[j]].NoneValue?) ==>
            RequiredCheck(names, d) == Err(KeyError)
  {
    if names != [] {
      RequiredCheckIff(names[1..], d);
      if exists i :: 0 <= i < |names| && names[i] !in d &&
                      forall j :: 0 <= j < i ==> names[j] in d && !d[names[j]].NoneValue? {
        var i :| 0 <= i < |names| && names[i] !in d &&
                 forall j :: 0 <= j < i ==> names[j] in d && !d[names[j]].NoneValue?;
        if i > 0 {
          assert names[1..][i - 1] == names[i];
          assert forall j :: 0 <= j < i - 1 ==> names[1..][j] == names[j + 1];
        }
      }
      if forall i :: 0 <= i < |names[1..]| ==> names[1..][i] in d && !d[names[1..][i]].NoneValue? {
        assert forall i :: 1 <= i < |names| ==> names[i] == names[1..][i - 1];
      }
    }
  }

  /** `value > 0` in Python: numbers compare, strings and None raise
      TypeError. */
  function Positive(v: Value): (r: Result<()>)
    ensures r.Ok? <==> v.Num? && v.x > 0.0
    ensures v.Num? && v.x <= 0.0 ==> r == Err(AssertionError)
  {
    match v
    case Num(x) => if x > 0.0 then Ok(()) else Err(AssertionError)
    case _ => Err(TypeError)
  }

  /** The dictionary after the log lines of `go`, which read `name`, `ra`,
      `dec`, `z`, `duration` and `T0` in that order; each read stores the
      default of a missing parameter. */
  function AfterLogging(d: map<string, Value>): (r: map<string, Value>)
    ensures forall k :: k in d ==> k in r && r[k] == d[k]
    ensures forall k :: k in r ==> k in d || k in GrbRequiredNames
    ensures forall i :: 0 <= i < |GrbRequiredNames| ==> GrbRequiredNames[i] in r
  {
    AfterGet(AfterGet(AfterGet(AfterGet(AfterGet(AfterGet(d, NameParam), RaParam), DecParam), ZParam),
                      DurationParam), TZeroParam)
  }

  /** The checks of `go` and the required-parameter dictionary they leave
      behind: the required-name loop, then `z > 0` and `duration > 0`,
      both read through their descriptors, then the log lines. */
  function GoValidation(requiredNames: seq<string>, d: map<string, Value>): (Result<()>, map<string, Value>)
  {
    var c := RequiredCheck(requiredNames, d);
    if c.Err? then (c, d)
    else
      var d1 := AfterGet(d, ZParam);
      var z := Positive(GetValue(d, ZParam));
      if z.Err? then (z, d1)
      else
        var d2 := AfterGet(d1, DurationParam);
        var du := Positive(GetValue(d1, DurationParam));
        if du.Err? then (du, d2)
        else (Ok(()), AfterLogging(d2))
  }

  /** `go` proceeds exactly when every required name holds a value other
      than None and `z` and `duration`, or their defaults when never set,
      are positive numbers. A successful check keeps every stored value and
      leaves all six declared names stored. */
  lemma GoValidationIff(requiredNames: seq<string>, d: map<string, Value>)
    ensures var (r, d') := GoValidation(requiredNames, d);
            (r.Ok? <==> (forall i :: 0 <= i < |requiredNames| ==>
                           requiredNames[i] in d && !d[requiredNames[i]].NoneValue?) &&
                        Positive(GetValue(d, ZParam)).Ok? && Positive(GetValue(d, DurationParam)).Ok?) &&
            (forall k :: k in d ==> k in d' && d'[k] == d[k]) &&
            (r.Ok? ==> forall i :: 0 <= i < |GrbRequiredNames| ==> GrbRequiredNames[i] in d')
  {
    RequiredCheckIff(requiredNames, d);
  }

  /** The base `GRB` is abstract and cannot be built, so this concerns a
      subclass that implements `_setup` and redeclares the six required
      parameters of `GRB`: built without keywords it cannot `go`, since its
      first required name, `name`, was never set or read. */
  lemma UnsetGrbCannotGo()
    ensures GoValidation(GrbRequiredNames, map[]).0 == Err(KeyError)
  {
  }

  /** A subclass declaring no required parameter of its own has an empty
      required-name list, so `go` checks only `z` and `duration`, which
      take their defaults, and leaves the six defaults stored. */
  lemma SubclassGoUsesDefaults()
    ensures GoValidation([], map[]).0 == Ok(())
    ensures GoValidation([], map[]).1 ==
            map["z" := Num(1.0), "duration" := Num(1.0), "name" := Str("SynthGRB"),
                "ra" := Num(0.0), "dec" := Num(0.0), "T0" := Num(0.0)]
  {
    var d1 := AfterGet(map[], ZParam);
    assert d1 == map["z" := Num(1.0)];
    var d2 := AfterGet(d1, DurationParam);
    assert d2 == map["z" := Num(1.0), "duration" := Num(1.0)];
    var e1 := AfterGet(d2, NameParam);
    assert e1 == d2["name" := Str("SynthGRB")];
    var e2 := AfterGet(e1, RaParam);
    assert e2 == e1["ra" := Num(0.0)];
    var e3 := AfterGet(e2, DecParam);
    assert e3 == e2["dec" := Num(0.0)];
    assert AfterGet(AfterGet(e3, ZParam), DurationParam) == e3;
    assert AfterLogging(d2) == e3["T0" := Num(0.0)];
  }

  /** The storing loop of `go`: each result is stored under its own name,
      and a name that has no light curve raises KeyError, keeping what was
      stored before it. The flag says whether the loop finished. */
  function StoreResults(lcNames: set<string>, st: map<string, LightCurveStorage>,
                        results: seq<LightCurveStorage>): (map<string, LightCurveStorage>, bool)
  {
    if results == [] then (st, true)
    else
      var (m, ok) := StoreResults(lcNames, st, results[..|results| - 1]);
      var lc := results[|results| - 1];
      if !ok || lc.name !in lcNames then (m, false) else (m[lc.name := lc], true)
  }

  /** Storing finishes exactly when every result names a light curve. */
  lemma {:induction false} StoreResultsFinishes(lcNames: set<string>, st: map<string, LightCurveStorage>,
                                                results: seq<LightCurveStorage>)
    ensures StoreResults(lcNames, st, results).1 <==> forall i :: 0 <= i < |results| ==> results[i].name in lcNames
  {
    if results != [] {
      var init := results[..|results| - 1];
      StoreResultsFinishes(lcNames, st, init);
      assert forall i :: 0 <= i < |init| ==> init[i] == results[i];
    }
  }

  /** Storages under names no result carries are untouched. */
  lemma {:induction false} StoreResultsKeepsOthers(lcNames: set<string>, st: map<string, LightCurveStorage>,
                                                   results: seq<LightCurveStorage>, k: string)
    requires k in st && forall i :: 0 <= i < |results| ==> results[i].name != k
    ensures k in StoreResults(lcNames, st, results).0 && StoreResults(lcNames, st, results).0[k] == st[k]
  {
    if results != [] {
      var init := results[..|results| - 1];
      assert forall i :: 0 <= i < |init| ==> init[i] == results[i];
      StoreResultsKeepsOthers(lcNames, st, init, k);
    }
  }

  /** After a finished loop, a result whose name no other result carries is
      stored under that name. */
  lemma {:induction false} StoreResultsStoresOne(lcNames: set<string>, st: map<string, LightCurveStorage>,
                                                 results: seq<LightCurveStorage>, i: int)
    requires 0 <= i < |results| && StoreResults(lcNames, st, results).1
    requires forall j :: 0 <= j < |results| && j != i ==> results[j].name != results[i].name
    ensures results[i].name in StoreResults(lcNames, st, results).0
    ensures StoreResults(lcNames, st, results).0[results[i].name] == results[i]
  {
    var init := results[..|results| - 1];
    if i < |results| - 1 {
      assert forall j :: 0 <= j < |init| ==> init[j] == results[j];
      StoreResultsStoresOne(lcNames, st, init, i);
    }
  }

  /** Storing finishes exactly when every result names a light curve; then
      each result with a name of its own is stored under that name, and
      storages under other names are untouched. */
  lemma StoreResultsStoresByName(lcNames: set<string>, st: map<string, LightCurveStorage>,
                                 results: seq<LightCurveStorage>)
    ensures var (m, ok) := StoreResults(lcNames, st, results);
            (ok <==> forall i :: 0 <= i < |results| ==> results[i].name in lcNames) &&
            (forall k :: k in st && (forall i :: 0 <= i < |results| ==> results[i].name != k) ==>
                           k in m && m[k] == st[k]) &&
            (ok ==> forall i :: 0 <= i < |results| &&
                                (forall j :: 0 <= j < |results| && j != i ==> results[j].name != results[i].name) ==>
                                  results[i].name in m && m[results[i].name] == results[i])
  {
    StoreResultsFinishes(lcNames, st, results);
    var (m, ok) := StoreResults(lcNames, st, results);
    forall k | k in st && (forall i :: 0 <= i < |results| ==> results[i].name != k)
      ensures k in m && m[k] == st[k]
    {
      StoreResultsKeepsOthers(lcNames, st, results, k);
    }
    if ok {
      forall i | 0 <= i < |results| &&
                 (forall j :: 0 <= j < |results| && j != i ==> results[j].name != results[i].name)
        ensures results[i].name in m && m[results[i].name] == results[i]
      {
        StoreResultsStoresOne(lcNames, st, results, i);
      }
    }
  }

  // ---------------------------------------------------------------------
  // The burst object

  /** A `GRB` instance. Its name lists are the ones the metaclass made for
      its own class, so a subclass sees only what its own body declares. */
  class Grb {
    const parameterNames: seq<string>
    const requiredNames: seq<string>
    const params: ParameterDicts
    var lightcurves: OrderedDict<LightCurve>
    var responses: OrderedDict<Response>
    var backgrounds: OrderedDict<BackgroundSampler>
    /** The storage set on each light curve after `go`, by light-curve name. */
    var storages: map<string, LightCurveStorage>

    ghost predicate Valid()
      reads this
    {
      lightcurves.Valid() && responses.Valid() && backgrounds.Valid()
    }

    constructor (parameterNames: seq<string>, requiredNames: seq<string>, params: ParameterDicts)
      ensures this.parameterNames == parameterNames && this.requiredNames == requiredNames && this.params == params
      ensures Valid()
      ensures lightcurves.keys == [] && responses.keys == [] && backgrounds.keys == [] && storages == map[]
    {
      this.parameterNames := parameterNames;
      this.requiredNames := requiredNames;
      this.params := params;
      lightcurves, responses, backgrounds := EmptyDict(), EmptyDict(), EmptyDict();
      storages := map[];
    }

    /** `_add_background`. */
    method AddBackground(name: string, background: BackgroundSampler)
      requires Valid()
      modifies this
      ensures Valid()
      ensures backgrounds == Put(old(backgrounds), name, background)
      ensures lightcurves == old(lightcurves) && responses == old(responses) && storages == old(storages)
    {
      backgrounds := Put(backgrounds, name, background);
    }

    /** `_add_response`. */
    method AddResponse(name: string, response: Response)
      requires Valid()
      modifies this
      ensures Valid()
      ensures responses == Put(old(responses), name, response)
      ensures lightcurves == old(lightcurves) && backgrounds == old(backgrounds) && storages == old(storages)
    {
      responses := Put(responses, name, response);
    }

    /** `_add_lightcurve`: keyed by the light curve's own name. */
    method AddLightCurve(lc: LightCurve)
      requires Valid()
      modifies this
      ensures Valid()
      ensures lightcurves == Put(old(lightcurves), lc.name, lc)
      ensures responses == old(responses) && backgrounds == old(backgrounds) && storages == old(storages)
    {
      lightcurves := Put(lightcurves, lc.name, lc);
    }

    /** The storing loop of `go`: each result is set on the light curve of
        its name, and the first result without one stops the loop. */
    method StoreAll(results: seq<LightCurveStorage>) returns (ok: bool)
      modifies this
      ensures (storages, ok) == StoreResults(lightcurves.entries.Keys, old(storages), results)
      ensures lightcurves == old(lightcurves) && responses == old(responses) && backgrounds == old(backgrounds)
    {
      var k := 0;
      while k < |results|
        invariant 0 <= k <= |results|
        invariant StoreResults(lightcurves.entries.Keys, old(storages), results[..k]) == (storages, true)
        invariant lightcurves == old(lightcurves) && responses == old(responses) && backgrounds == old(backgrounds)
      {
        assert results[..k + 1][..k] == results[..k];
        var lc := results[k];
        if lc.name !in lightcurves.entries {
          StoreResultsFailurePersists(lightcurves.entries.Keys, old(storages), results, k + 1);
          return false;
        }
        storages := storages[lc.name := lc];
        k := k + 1;
      }
      assert results[..|results|] == results;
      return true;
    }

    /** `go`, given what processing the light curves returned: the checks,
        then each result stored on the light curve of its name. */
    method Go(results: seq<LightCurveStorage>) returns (r: Result<()>)
      modifies this, params
      ensures params.sourceParams == old(params.sourceParams)
      ensures lightcurves == old(lightcurves) && responses == old(responses) && backgrounds == old(backgrounds)
      ensures var (v, d) := GoValidation(requiredNames, old(params.requiredParams));
              params.requiredParams == d &&
              (v.Err? ==> r == v && storages == old(storages)) &&
              (v.Ok? ==> var (m, ok) := StoreResults(lightcurves.entries.Keys, old(storages), results);
                         storages == m && (r.Ok? <==> ok) && (r.Err? ==> r.error == KeyError))
    {
      var c := CheckRequiredNames(requiredNames, params.requiredParams);
      if c.Err? {
        return c;
      }
      var z := params.Get(ZParam);
      if !(z.Num? && z.x > 0.0) {
        return if z.Num? then Err(AssertionError) else Err(TypeError);
      }
      var duration := params.Get(DurationParam);
      if !(duration.Num? && duration.x > 0.0) {
        return if duration.Num? then Err(AssertionError) else Err(TypeError);
      }
      ghost var d2 := params.requiredParams;
      var _ := params.Get(NameParam);
      var _ := params.Get(RaParam);
      var _ := params.Get(DecParam);
      var _ := params.Get(ZParam);
      var _ := params.Get(DurationParam);
      var _ := params.Get(TZeroParam);
      assert params.requiredParams == AfterLogging(d2);
      var ok := StoreAll(results);
      r := if ok then Ok(()) else Err(KeyError);
    }
  }

  /** The loop over `_required_names` in `go`. */
  method CheckRequiredNames(names: seq<string>, d: map<string, Value>) returns (r: Result<()>)
    ensures r == RequiredCheck(names, d)
  {
    var i := 0;
    while i < |names|
      invariant 0 <= i <= |names|
      invariant RequiredCheck(names, d) == RequiredCheck(names[i..], d)
    {
      assert names[i..][1..] == names[i + 1..];
      var key := names[i];
      if key !in d {
        return Err(KeyError);
      }
      if d[key].NoneValue? {
        return Err(AssertionError);
      }
      i := i + 1;
    }
    return Ok(());
  }

  /** Once storing stops, later results change nothing. */
  lemma {:induction false} StoreResultsFailurePersists(lcNames: set<string>, st: map<string, LightCurveStorage>,
                                                       results: seq<LightCurveStorage>, n: nat)
    requires n <= |results| && !StoreResults(lcNames, st, results[..n]).1
    ensures StoreResults(lcNames, st, results) == StoreResults(lcNames, st, results[..n])
    decreases |results|
  {
    if n < |results| {
      var init := results[..|results| - 1];
      assert init[..n] == results[..n];
      StoreResultsFailurePersists(lcNames, st, init, n);
    } else {
      assert results[..n] == results;
    }
  }

  /** `GRB(source_function_class, **kwargs)` for a class whose body is
      `body`: TypeError when the class leaves the abstract `_setup`
      unimplemented (the base `GRB` itself), before any of the constructor
      runs; AssertionError when the source function is not a
      `SourceFunction`; otherwise each keyword is written into the source
      dictionary when it names a source parameter, else into the required
      dictionary when it names a required parameter, else dropped. */
  method OpenGrb(body: seq<(string, Attr)>, implementsSetup: bool, isSourceFunction: bool,
                 kwargs: seq<(string, Value)>)
      returns (r: Result<Grb>)
    ensures r.Err? <==> !implementsSetup || !isSourceFunction
    ensures !implementsSetup ==> r == Err(TypeError)
    ensures implementsSetup && !isSourceFunction ==> r == Err(AssertionError)
    ensures r.Ok? ==>
              var g := r.value;
              fresh(g) && fresh(g.params) && g.Valid() &&
              g.parameterNames == DeclaredNames(body, SourceKind) &&
              g.requiredNames == DeclaredNames(body, RequiredKind) &&
              g.params.sourceParams == Routed(kwargs, g.parameterNames, []) &&
              g.params.requiredParams == Routed(kwargs, g.requiredNames, g.parameterNames) &&
              g.lightcurves.keys == [] && g.responses.keys == [] && g.backgrounds.keys == [] &&
              g.storages == map[]
  {
    if !implementsSetup {
      return Err(TypeError);
    }
    var parameterNames, requiredNames, _ := DeclareParameters(body);
    if !isSourceFunction {
      return Err(AssertionError);
    }
    var params := new ParameterDicts();
    var i := 0;
    while i < |kwargs|
      invariant 0 <= i <= |kwargs|
      invariant params.sourceParams == Routed(kwargs[..i], parameterNames, [])
      invariant params.requiredParams == Routed(kwargs[..i], requiredNames, parameterNames)
    {
      assert kwargs[..i + 1][..i] == kwargs[..i];
      var (k, v) := kwargs[i];
      if k in parameterNames {
        params.sourceParams := params.sourceParams[k := v];
      } else if k in requiredNames {
        params.requiredParams := params.requiredParams[k := v];
      }
      i := i + 1;
    }
    assert kwargs[..|kwargs|] == kwargs;
    var g := new Grb(parameterNames, requiredNames, params);
    return Ok(g);
  }
}
