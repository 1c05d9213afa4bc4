/** The engine's pre-processing of resolved configuration parameters
    (openquake/engine.py, _prepare_config_parameters): drop what the
    calculation mode does not use, make file paths absolute, force the mean
    hazard curve for classical hazard+risk jobs. */
module ParameterPreparer {
  import opened Results
  import opened Seqs
  import opened Paths
  import opened ParamCatalog

  /** A dictionary lookup that raised KeyError for the given key. */
  datatype PrepareError = MissingKey(key: string)

  type Params = map<string, string>

  /** CALCULATION_MODE[params['CALCULATION_MODE']] */
  function CalcMode(cat: Catalog, params: Params): (r: Result<string, PrepareError>)
    ensures r.Success? <==>
      CalculationModeKey in params && params[CalculationModeKey] in cat.calculationModes
    ensures r.Success? ==> r.value == cat.calculationModes[params[CalculationModeKey]]
  {
    if CalculationModeKey !in params then Failure(MissingKey(CalculationModeKey))
    else if params[CalculationModeKey] !in cat.calculationModes then
      Failure(MissingKey(params[CalculationModeKey]))
    else Success(cat.calculationModes[params[CalculationModeKey]])
  }

  /** The parameters the first loop keeps: those registered for the mode. */
  function Kept(cat: Catalog, mode: string, params: Params): (r: Params)
    ensures forall n :: n in r <==> n in params && Legal(cat, mode, n)
    ensures forall n :: n in r ==> r[n] == params[n]
  {
    map n | n in params && Legal(cat, mode, n) :: params[n]
  }

  /** The PATH_PARAMS loop, one name at a time: a present path parameter is
      joined onto params['BASE_PATH'], whose absence is a KeyError. */
  function RewritePaths(params: Params, names: seq<string>, m: Params): Result<Params, PrepareError>
    decreases |names|
  {
    if names == [] then Success(m)
    else if names[0] !in m then RewritePaths(params, names[1..], m)
    else if BasePathKey !in params then Failure(MissingKey(BasePathKey))
    else RewritePaths(params, names[1..], m[names[0] := Join(params[BasePathKey], m[names[0]])])
  }

  /** Whether the job is classical and has both HAZARD and RISK sections. */
  predicate ForcesMean(mode: string, sections: seq<string>) {
    mode == "classical" && "HAZARD" in sections && "RISK" in sections
  }

  /** The reference result of _prepare_config_parameters. */
  function Prepare(cat: Catalog, params: Params, sections: seq<string>)
    : Result<(Params, seq<string>), PrepareError>
  {
    var mode :- CalcMode(cat, params);
    var pathed :- RewritePaths(params, cat.pathParams, Kept(cat, mode, params));
    Success((if ForcesMean(mode, sections) then pathed[ComputeMeanKey := "true"] else pathed, sections))
  }

  /** _prepare_config_parameters as the engine runs it: a loop over the
      parameters, then a loop over PATH_PARAMS. */
  method PrepareConfigParameters(cat: Catalog, params: Params, sections: seq<string>)
    returns (r: Result<(Params, seq<string>), PrepareError>)
    ensures r == Prepare(cat, params, sections)
  {
    var modeResult := CalcMode(cat, params);
    if modeResult.Failure? {
      return Failure(modeResult.error);
    }
    var mode := modeResult.value;

    var newParams: Params := map[];
    var todo := params.Keys;
    while todo != {}
      invariant todo <= params.Keys
      invariant forall n :: n in newParams <==> n in params.Keys - todo && Legal(cat, mode, n)
      invariant forall n :: n in newParams ==> newParams[n] == params[n]
      decreases |todo|
    {
      var name :| name in todo;
      if name in cat.params && mode in cat.params[name].modes {
        newParams := newParams[name := params[name]];
      }
      todo := todo - {name};
    }
    assert newParams == Kept(cat, mode, params);

    var i := 0;
    while i < |cat.pathParams|
      invariant 0 <= i <= |cat.pathParams|
      invariant RewritePaths(params, cat.pathParams[i..], newParams) ==
                RewritePaths(params, cat.pathParams, Kept(cat, mode, params))
    {
      var name := cat.pathParams[i];
      assert cat.pathParams[i..][1..] == cat.pathParams[i + 1..];
      if name in newParams {
        if BasePathKey !in params {
          return Failure(MissingKey(BasePathKey));
        }
        newParams := newParams[name := Join(params[BasePathKey], newParams[name])];
      }
      i := i + 1;
    }

    if ForcesMean(mode, sections) {
      newParams := newParams[ComputeMeanKey := "true"];
    }
    return Success((newParams, sections));
  }

  // ------------------------------------------------------------ properties

  /** The value a path parameter ends up with: joined onto the base path when
      it is listed, unchanged otherwise. Joining twice is joining once when
      the base is absolute, so a repeated PATH_PARAMS entry only matters for a
      relative base. */
  lemma {:induction false} RewritePathsValues(params: Params, names: seq<string>, m: Params)
    requires BasePathKey in params
    requires NoDup(names) || IsAbs(params[BasePathKey])
    ensures RewritePaths(params, names, m).Success?
    ensures RewritePaths(params, names, m).value.Keys == m.Keys
    ensures forall n :: n in m ==>
      RewritePaths(params, names, m).value[n] ==
        (if n in names then Join(params[BasePathKey], m[n]) else m[n])
    decreases |names|
  {
    if names != [] {
      var base := params[BasePathKey];
      var rest := names[1..];
      assert NoDup(names) ==> NoDup(rest);
      assert NoDup(names) ==> names[0] !in rest;
      if names[0] !in m {
        RewritePathsValues(params, rest, m);
      } else {
        var m1 := m[names[0] := Join(base, m[names[0]])];
        RewritePathsValues(params, rest, m1);
        if names[0] in rest {
          JoinAbsIdempotent(base, m[names[0]]);
        }
      }
    }
  }

  /** Rewriting paths fails exactly when some path parameter is present and
      the base path is not. */
  lemma {:induction false} RewritePathsFails(params: Params, names: seq<string>, m: Params)
    ensures RewritePaths(params, names, m).Failure? <==>
      BasePathKey !in params && exists k :: 0 <= k < |names| && names[k] in m
    ensures RewritePaths(params, names, m).Failure? ==>
      RewritePaths(params, names, m).error == MissingKey(BasePathKey)
    ensures BasePathKey !in params ==>
      RewritePaths(params, names, m) ==
        (if exists k :: 0 <= k < |names| && names[k] in m then Failure(MissingKey(BasePathKey)) else Success(m))
    decreases |names|
  {
    if names != [] {
      if names[0] in m && BasePathKey in params {
        var m1 := m[names[0] := Join(params[BasePathKey], m[names[0]])];
        RewritePathsFails(params, names[1..], m1);
      } else {
        RewritePathsFails(params, names[1..], m);
      }
      if exists k :: 0 <= k < |names| && names[k] in m {
        var k :| 0 <= k < |names| && names[k] in m;
        if k > 0 {
          assert names[1..][k - 1] in m;
        }
      }
      if exists k :: 0 <= k < |names[1..]| && names[1..][k] in m {
        var k :| 0 <= k < |names[1..]| && names[1..][k] in m;
        assert names[k + 1] in m;
      }
    }
  }

  /** The calculation mode is required: a missing or unregistered
      CALCULATION_MODE is a KeyError. */
  lemma ModeRequired(cat: Catalog, params: Params, sections: seq<string>)
    ensures CalculationModeKey !in params ==>
      Prepare(cat, params, sections) == Failure(MissingKey(CalculationModeKey))
    ensures CalculationModeKey in params && params[CalculationModeKey] !in cat.calculationModes ==>
      Prepare(cat, params, sections) == Failure(MissingKey(params[CalculationModeKey]))
  {
  }

  /** What prepare keeps: exactly the parameters registered for the mode,
      plus the forced COMPUTE_MEAN_HAZARD_CURVE; with their values unchanged
      except that path parameters are made absolute; sections pass through. */
  lemma PreparedParams(cat: Catalog, params: Params, sections: seq<string>)
    requires CalcMode(cat, params).Success?
    requires BasePathKey in params
    requires NoDup(cat.pathParams) || IsAbs(params[BasePathKey])
    ensures Prepare(cat, params, sections).Success?
    ensures Prepare(cat, params, sections).value.1 == sections
    ensures var mode := CalcMode(cat, params).value;
      var out := Prepare(cat, params, sections).value.0;
      (forall n :: n in out <==> (n in params && Legal(cat, mode, n)) ||
                                 (n == ComputeMeanKey && ForcesMean(mode, sections))) &&
      (ForcesMean(mode, sections) ==> out[ComputeMeanKey] == "true") &&
      (forall n :: n in out && !(n == ComputeMeanKey && ForcesMean(mode, sections)) ==>
        out[n] == if n in cat.pathParams then Join(params[BasePathKey], params[n]) else params[n])
  {
    var mode := CalcMode(cat, params).value;
    RewritePathsValues(params, cat.pathParams, Kept(cat, mode, params));
  }

  /** Without a base path, prepare still succeeds when no path parameter
      survives the filter, and fails with KeyError('BASE_PATH') otherwise. */
  lemma MissingBasePath(cat: Catalog, params: Params, sections: seq<string>)
    requires CalcMode(cat, params).Success?
    requires BasePathKey !in params
    ensures var mode := CalcMode(cat, params).value;
      Prepare(cat, params, sections).Failure? <==>
        exists k :: 0 <= k < |cat.pathParams| && cat.pathParams[k] in params &&
          Legal(cat, mode, cat.pathParams[k])
  {
    var mode := CalcMode(cat, params).value;
    var kept := Kept(cat, mode, params);
    RewritePathsFails(params, cat.pathParams, kept);
    if exists k :: 0 <= k < |cat.pathParams| && cat.pathParams[k] in kept {
      var k :| 0 <= k < |cat.pathParams| && cat.pathParams[k] in kept;
      assert cat.pathParams[k] in params && Legal(cat, mode, cat.pathParams[k]);
    }
  }

  /** Preparing prepared parameters changes nothing, provided the mode and
      base-path parameters survive their own filter unchanged and the base
      path is absolute (as the resolver makes it when started from an
      absolute working directory). */
  lemma PrepareIdempotent(cat: Catalog, params: Params, sections: seq<string>)
    requires CalcMode(cat, params).Success?
    requires var mode := CalcMode(cat, params).value;
      Legal(cat, mode, CalculationModeKey) && CalculationModeKey !in cat.pathParams &&
      Legal(cat, mode, BasePathKey) && BasePathKey !in cat.pathParams
    requires BasePathKey in params && IsAbs(params[BasePathKey])
    ensures Prepare(cat, params, sections).Success?
    ensures var out := Prepare(cat, params, sections).value;
      Prepare(cat, out.0, out.1) == Success(out)
  {
    var mode := CalcMode(cat, params).value;
    var base := params[BasePathKey];
    PreparedParams(cat, params, sections);
    var out := Prepare(cat, params, sections).value.0;
    assert CalculationModeKey != ComputeMeanKey && BasePathKey != ComputeMeanKey;
    assert out[CalculationModeKey] == params[CalculationModeKey];
    assert out[BasePathKey] == base;
    assert CalcMode(cat, out) == Success(mode);
    PreparedParams(cat, out, sections);
    var out2 := Prepare(cat, out, sections).value.0;
    forall n | n in out2 ensures n in out && out2[n] == out[n] {
      if !(n == ComputeMeanKey && ForcesMean(mode, sections)) {
        if n in cat.pathParams {
          var v := params[n];
          assert out[n] == Join(base, v);
          JoinAbsIdempotent(base, v);
        }
      }
    }
    assert out2 == out;
  }
}
