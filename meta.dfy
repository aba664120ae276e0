/** The parameter descriptors of cosmogrb/utils/meta.py. A descriptor reads
    and writes one key of one of two dictionaries held by the owning object
    (`_source_params` or `_required_params`): reading a missing key stores
    the default first, and writing a number checks the optional bounds. The
    metaclass names every descriptor after its attribute and lists the
    names, per kind, in declaration order. */
module Meta {
  import opened Common

  /** The values a parameter takes: a string, a number (Python int or
      float) or None. */
  datatype Value = Str(s: string) | Num(x: real) | NoneValue

  /** Which dictionary of the owner a descriptor uses: `SourceParameter`
      writes `_source_params`, `RequiredParameter` `_required_params`. */
  datatype Kind = SourceKind | RequiredKind

  /** A named descriptor. */
  datatype Parameter = Parameter(name: string, kind: Kind, default: Value, vmin: Option<real>, vmax: Option<real>)

  // ---------------------------------------------------------------------
  // __get__ and __set__ on one dictionary

  /** The value `__get__` returns. */
  function GetValue(d: map<string, Value>, p: Parameter): Value
  {
    if p.name in d then d[p.name] else p.default
  }

  /** The dictionary after `__get__`: a missing key now holds the default. */
  function AfterGet(d: map<string, Value>, p: Parameter): (r: map<string, Value>)
    ensures p.name in r && r[p.name] == GetValue(d, p)
    ensures forall k :: k in d ==> k in r && r[k] == d[k]
    ensures forall k :: k in r && k != p.name ==> k in d
  {
    if p.name in d then d else d[p.name := p.default]
  }

  /** Reading twice gives the same value and the second read changes
      nothing. */
  lemma GetIsStable(d: map<string, Value>, p: Parameter)
    ensures GetValue(AfterGet(d, p), p) == GetValue(d, p)
    ensures AfterGet(AfterGet(d, p), p) == AfterGet(d, p)
  {
  }

  /** The bound check of `__set__`: strings skip it; otherwise a lower bound
      is asserted, then an upper bound. Comparing None with a number raises
      TypeError. */
  function CheckBounds(p: Parameter, v: Value): (r: Result<()>)
    ensures r.Err? ==> r.error == AssertionError || r.error == TypeError
  {
    if v.Str? then Ok(())
    else if p.vmin.Some? && v.NoneValue? then Err(TypeError)
    else if p.vmin.Some? && v.x < p.vmin.value then Err(AssertionError)
    else if p.vmax.Some? && v.NoneValue? then Err(TypeError)
    else if p.vmax.Some? && v.x > p.vmax.value then Err(AssertionError)
    else Ok(())
  }

  /** A number is accepted exactly when it lies within the given bounds;
      None is accepted only without bounds, and strings always. */
  lemma CheckBoundsIff(p: Parameter, v: Value)
    ensures v.Num? ==> (CheckBounds(p, v).Ok? <==>
                          (p.vmin.Some? ==> p.vmin.value <= v.x) && (p.vmax.Some? ==> v.x <= p.vmax.value))
    ensures v.NoneValue? ==> (CheckBounds(p, v).Ok? <==> p.vmin.None? && p.vmax.None?)
    ensures v.Str? ==> CheckBounds(p, v).Ok?
  {
  }

  /** Writing then reading gives the written value. */
  lemma SetThenGet(d: map<string, Value>, p: Parameter, v: Value)
    ensures GetValue(d[p.name := v], p) == v
    ensures AfterGet(d[p.name := v], p) == d[p.name := v]
  {
  }

  /** The two dictionaries a descriptor-owning object holds. */
  class ParameterDicts {
    var sourceParams: map<string, Value>
    var requiredParams: map<string, Value>

    constructor ()
      ensures sourceParams == map[] && requiredParams == map[]
    {
      sourceParams, requiredParams := map[], map[];
    }

    function Dict(kind: Kind): map<string, Value>
      reads this
    {
      if kind.SourceKind? then sourceParams else requiredParams
    }

    /** `Parameter.__get__`: the stored value, storing the default first
        when the key is missing. The other dictionary is untouched. */
    method Get(p: Parameter) returns (v: Value)
      modifies this
      ensures v == GetValue(old(Dict(p.kind)), p)
      ensures Dict(p.kind) == AfterGet(old(Dict(p.kind)), p)
      ensures p.kind.SourceKind? ==> requiredParams == old(requiredParams)
      ensures p.kind.RequiredKind? ==> sourceParams == old(sourceParams)
    {
      if p.kind.SourceKind? {
        if p.name !in sourceParams {
          sourceParams := sourceParams[p.name := p.default];
        }
        v := sourceParams[p.name];
      } else {
        if p.name !in requiredParams {
          requiredParams := requiredParams[p.name := p.default];
        }
        v := requiredParams[p.name];
      }
    }

    /** `Parameter.__set__`: after the bound check, writes this parameter's
        key and nothing else; a failed check writes nothing. */
    method Set(p: Parameter, v: Value) returns (r: Result<()>)
      modifies this
      ensures r == CheckBounds(p, v)
      ensures r.Ok? ==> Dict(p.kind) == old(Dict(p.kind))[p.name := v]
      ensures r.Err? ==> Dict(p.kind) == old(Dict(p.kind))
      ensures p.kind.SourceKind? ==> requiredParams == old(requiredParams)
      ensures p.kind.RequiredKind? ==> sourceParams == old(sourceParams)
    {
      if !v.Str? {
        if p.vmin.Some? {
          if v.NoneValue? {
            return Err(TypeError);
          }
          if v.x < p.vmin.value {
            return Err(AssertionError);
          }
        }
        if p.vmax.Some? {
          if v.NoneValue? {
            return Err(TypeError);
          }
          if v.x > p.vmax.value {
            return Err(AssertionError);
          }
        }
      }
      if p.kind.SourceKind? {
        sourceParams := sourceParams[p.name := v];
      } else {
        requiredParams := requiredParams[p.name := v];
      }
      return Ok(());
    }
  }

  // ---------------------------------------------------------------------
  // GRBMeta.__new__

  /** An attribute of a class body: a source parameter, a required
      parameter (each with its default and bounds) or anything else. */
  datatype Attr =
    | SourceAttr(default: Value, vmin: Option<real>, vmax: Option<real>)
    | RequiredAttr(default: Value, vmin: Option<real>, vmax: Option<real>)
    | OtherAttr

  predicate OfKind(a: Attr, kind: Kind)
  {
    if kind.SourceKind? then a.SourceAttr? else a.RequiredAttr?
  }

  /** The attribute names of one kind, in declaration order. */
  function DeclaredNames(attrs: seq<(string, Attr)>, kind: Kind): (names: seq<string>)
    ensures |names| <= |attrs|
  {
    if attrs == [] then []
    else
      var rest := DeclaredNames(attrs[..|attrs| - 1], kind);
      var last := attrs[|attrs| - 1];
      if OfKind(last.1, kind) then rest + [last.0] else rest
  }

  /** Declaring one more attribute appends its name to its own kind's list. */
  lemma DeclaredNamesAppend(attrs: seq<(string, Attr)>, a: (string, Attr), kind: Kind)
    ensures DeclaredNames(attrs + [a], kind) ==
            DeclaredNames(attrs, kind) + (if OfKind(a.1, kind) then [a.0] else [])
  {
    assert (attrs + [a])[..|attrs|] == attrs;
  }

  /** A name is listed exactly when an attribute of that kind carries it. */
  lemma {:induction false} DeclaredNamesMembership(attrs: seq<(string, Attr)>, kind: Kind, x: string)
    ensures x in DeclaredNames(attrs, kind) <==>
            exists i :: 0 <= i < |attrs| && attrs[i].0 == x && OfKind(attrs[i].1, kind)
  {
    if attrs != [] {
      var init := attrs[..|attrs| - 1];
      DeclaredNamesMembership(init, kind, x);
      if exists i :: 0 <= i < |init| && init[i].0 == x && OfKind(init[i].1, kind) {
        var i :| 0 <= i < |init| && init[i].0 == x && OfKind(init[i].1, kind);
        assert attrs[i] == init[i];
      }
      if exists i :: 0 <= i < |attrs| && attrs[i].0 == x && OfKind(attrs[i].1, kind) {
        var i :| 0 <= i < |attrs| && attrs[i].0 == x && OfKind(attrs[i].1, kind);
        if i < |attrs| - 1 {
          assert init[i] == attrs[i];
        }
      }
    }
  }

  /** The descriptor an attribute becomes, named after its attribute. */
  function Describe(name: string, a: Attr): Option<Parameter>
  {
    match a
    case SourceAttr(d, lo, hi) => Some(Parameter(name, SourceKind, d, lo, hi))
    case RequiredAttr(d, lo, hi) => Some(Parameter(name, RequiredKind, d, lo, hi))
    case OtherAttr => None
  }

  /** The descriptors of a class body: one per parameter attribute, in
      declaration order. */
  function Descriptors(attrs: seq<(string, Attr)>): (ds: seq<Parameter>)
    ensures |ds| <= |attrs|
  {
    if attrs == [] then []
    else
      var rest := Descriptors(attrs[..|attrs| - 1]);
      var last := attrs[|attrs| - 1];
      match Describe(last.0, last.1)
      case Some(p) => rest + [p]
      case None => rest
  }

  /** Declaring one more attribute appends its descriptor, if it has one. */
  lemma DescriptorsAppend(attrs: seq<(string, Attr)>, a: (string, Attr))
    ensures Descriptors(attrs + [a]) ==
            Descriptors(attrs) + (match Describe(a.0, a.1) case Some(p) => [p] case None => [])
  {
    assert (attrs + [a])[..|attrs|] == attrs;
  }

  /** There is one descriptor per declared name of either kind, and each is
      a parameter attribute's own descriptor. */
  lemma {:induction false} DescriptorsCover(attrs: seq<(string, Attr)>)
    ensures |Descriptors(attrs)| ==
            |DeclaredNames(attrs, SourceKind)| + |DeclaredNames(attrs, RequiredKind)|
    ensures forall k :: 0 <= k < |Descriptors(attrs)| ==>
              exists i :: 0 <= i < |attrs| && Describe(attrs[i].0, attrs[i].1) == Some(Descriptors(attrs)[k])
  {
    if attrs != [] {
      var init := attrs[..|attrs| - 1];
      var last := attrs[|attrs| - 1];
      assert attrs == init + [last];
      DescriptorsCover(init);
      DescriptorsAppend(init, last);
      DeclaredNamesAppend(init, last, SourceKind);
      DeclaredNamesAppend(init, last, RequiredKind);
      var ds := Descriptors(attrs);
      forall k | 0 <= k < |ds|
        ensures exists i :: 0 <= i < |attrs| && Describe(attrs[i].0, attrs[i].1) == Some(ds[k])
      {
        if k < |Descriptors(init)| {
          assert ds[k] == Descriptors(init)[k];
          var i :| 0 <= i < |init| && Describe(init[i].0, init[i].1) == Some(Descriptors(init)[k]);
          assert attrs[i] == init[i];
        } else {
          assert Describe(last.0, last.1) == Some(ds[k]);
        }
      }
    }
  }

  /** `GRBMeta.__new__`: fresh, empty name lists for the class, then one
      pass over the class body that names each descriptor and appends its
      name to the list of its kind. Only the class's own body is read, so
      inherited parameters are not listed. */
  method DeclareParameters(attrs: seq<(string, Attr)>)
      returns (parameterNames: seq<string>, requiredNames: seq<string>, descriptors: seq<Parameter>)
    ensures parameterNames == DeclaredNames(attrs, SourceKind)
    ensures requiredNames == DeclaredNames(attrs, RequiredKind)
    ensures descriptors == Descriptors(attrs)
    ensures |descriptors| == |parameterNames| + |requiredNames|
    ensures forall k :: 0 <= k < |descriptors| ==>
              exists i :: 0 <= i < |attrs| && Describe(attrs[i].0, attrs[i].1) == Some(descriptors[k])
  {
    parameterNames, requiredNames, descriptors := [], [], [];
    var i := 0;
    while i < |attrs|
      invariant 0 <= i <= |attrs|
      invariant parameterNames == DeclaredNames(attrs[..i], SourceKind)
      invariant requiredNames == DeclaredNames(attrs[..i], RequiredKind)
      invariant descriptors == Descriptors(attrs[..i])
    {
      assert attrs[..i + 1] == attrs[..i] + [attrs[i]];
      DescriptorsAppend(attrs[..i], attrs[i]);
      DeclaredNamesAppend(attrs[..i], attrs[i], SourceKind);
      DeclaredNamesAppend(attrs[..i], attrs[i], RequiredKind);
      var (name, a) := attrs[i];
      match a {
        case SourceAttr(d, lo, hi) =>
          parameterNames := parameterNames + [name];
          descriptors := descriptors + [Parameter(name, SourceKind, d, lo, hi)];
        case RequiredAttr(d, lo, hi) =>
          requiredNames := requiredNames + [name];
          descriptors := descriptors + [Parameter(name, RequiredKind, d, lo, hi)];
        case OtherAttr =>
      }
      i := i + 1;
    }
    assert attrs[..|attrs|] == attrs;
    DescriptorsCover(attrs);
  }
}
