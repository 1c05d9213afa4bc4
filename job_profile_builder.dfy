/** Filling in a job profile from prepared parameters (openquake/engine.py:
    _store_input_parameters, the job_type derivation of _prepare_job and
    _get_source_models). Geometry construction, float parsing and XML parsing
    are conversions supplied from outside; ARRAY_RE is its set of delimiter
    characters. */
module JobProfileBuilder {
  import opened Results
  import opened Seqs
  import opened Strings
  import opened Paths
  import opened ParamCatalog
  import opened Writes

  /** The conversions the storing code calls out to. */
  datatype Conversions = Conversions(
    parseFloat: string -> Option<real>,   // float(v); None is a ValueError
    polygonEwkt: string -> string,        // shapes.polygon_ewkt_from_coords
    multiPointEwkt: string -> string,     // shapes.multipoint_ewkt_from_coords
    arrayDelims: set<char>)               // the characters ARRAY_RE splits on

  /** PARAMS[name] raising KeyError, or float(text) raising ValueError. */
  datatype StoreError = UnknownParameter(name: string) | BadFloat(name: string, text: string)

  /** The job-profile record: its columns by name. */
  class JobProfile {
    var columns: map<string, Value>

    constructor (initial: map<string, Value>)
      ensures columns == initial
    {
      columns := initial;
    }
  }

  // ------------------------------------------------------------ coercion

  /** value.lower() not in ('0', 'false') */
  predicate IsTrue(v: string) {
    Lower(v) != "0" && Lower(v) != "false"
  }

  /** [float(v) for v in tokens]: the first token float rejects is the error. */
  function ParseFloats(conv: Conversions, name: string, tokens: seq<string>): (r: Result<seq<real>, StoreError>)
    ensures r.Success? <==> forall i :: 0 <= i < |tokens| ==> conv.parseFloat(tokens[i]).Some?
    ensures r.Success? ==>
      |r.value| == |tokens| &&
      forall i :: 0 <= i < |tokens| ==> conv.parseFloat(tokens[i]) == Some(r.value[i])
    ensures r.Failure? ==>
      exists i :: 0 <= i < |tokens| && conv.parseFloat(tokens[i]).None? && r.error == BadFloat(name, tokens[i])
  {
    if tokens == [] then Success([])
    else match conv.parseFloat(tokens[0])
      case None => Failure(BadFloat(name, tokens[0]))
      case Some(x) =>
        match ParseFloats(conv, name, tokens[1..])
        case Failure(e) =>
          var i :| 0 <= i < |tokens[1..]| && conv.parseFloat(tokens[1..][i]).None? && e == BadFloat(name, tokens[1..][i]);
          assert tokens[i + 1] == tokens[1..][i];
          Failure(e)
        case Success(xs) => Success([x] + xs)
  }

  /** The value one user parameter is stored as, decided by its column type;
      None is the `continue` taken for an untyped parameter without to_db. */
  function Coerce(conv: Conversions, name: string, spec: ParamSpec, raw: string): Result<Option<Value>, StoreError> {
    CoerceStripped(conv, name, spec, Strip(raw))
  }

  /** The coercion of the stripped text v. */
  function CoerceStripped(conv: Conversions, name: string, spec: ParamSpec, v: string): Result<Option<Value>, StoreError> {
    var t := spec.fieldType;
    if t.BooleanField? || t.NullBooleanField? then Success(Some(VBool(IsTrue(v))))
    else if t.PolygonField? then Success(Some(VGeometry(conv.polygonEwkt(v))))
    else if t.MultiPointField? then Success(Some(VGeometry(conv.multiPointEwkt(v))))
    else if t.FloatArrayField? then
      var xs :- ParseFloats(conv, name, Tokens(v, conv.arrayDelims));
      Success(Some(VRealList(xs)))
    else if t.CharArrayField? then
      var w := if spec.toDb.Some? then spec.toDb.value(v) else v;
      Success(Some(VStrList(Tokens(w, conv.arrayDelims))))
    else if spec.toDb.Some? then Success(Some(VStr(spec.toDb.value(v))))
    else if t.NoField? then Success(None)
    else Success(Some(VStr(v)))
  }

  /** Boolean parameters: only "0" and "false" are false, in any letter case
      and with any surrounding white space; everything else is true. */
  lemma BooleanCoercion(conv: Conversions, name: string, spec: ParamSpec, raw: string)
    requires spec.fieldType.BooleanField? || spec.fieldType.NullBooleanField?
    ensures Coerce(conv, name, spec, raw) == Success(Some(VBool(Lower(Strip(raw)) != "0" && Lower(Strip(raw)) != "false")))
    ensures Coerce(conv, name, spec, Upper(raw)) == Coerce(conv, name, spec, raw)
    ensures Coerce(conv, name, spec, " " + raw + "\n") == Coerce(conv, name, spec, raw)
  {
    var v := Strip(raw);
    assert Coerce(conv, name, spec, raw) == Success(Some(VBool(IsTrue(v))));
    StripUpper(raw);
    LowerOfUpper(v);
    assert IsTrue(Upper(v)) == IsTrue(v);
    assert Coerce(conv, name, spec, Upper(raw)) == CoerceStripped(conv, name, spec, Upper(v));
    StripPadded(raw);
  }

  /** Array parameters become the non-empty, delimiter-free pieces of their
      stripped text (after to_db for character arrays); float arrays hold the
      float of each piece and fail exactly when some piece does not parse. */
  lemma ArrayCoercion(conv: Conversions, name: string, spec: ParamSpec, raw: string)
    requires spec.fieldType.CharArrayField? || spec.fieldType.FloatArrayField?
    ensures Coerce(conv, name, spec, raw).Success? ==>
      Coerce(conv, name, spec, raw).value.Some?
    ensures spec.fieldType.CharArrayField? ==>
      Coerce(conv, name, spec, raw).Success? &&
      var ts := Coerce(conv, name, spec, raw).value.value.ss;
      ts == Tokens(if spec.toDb.Some? then spec.toDb.value(Strip(raw)) else Strip(raw), conv.arrayDelims) &&
      forall i :: 0 <= i < |ts| ==>
        ts[i] != [] && forall j :: 0 <= j < |ts[i]| ==> ts[i][j] !in conv.arrayDelims
    ensures spec.fieldType.FloatArrayField? ==>
      var ts := Tokens(Strip(raw), conv.arrayDelims);
      (Coerce(conv, name, spec, raw).Success? <==> forall i :: 0 <= i < |ts| ==> conv.parseFloat(ts[i]).Some?)
    ensures spec.fieldType.FloatArrayField? && Coerce(conv, name, spec, raw).Success? ==>
      var ts := Tokens(Strip(raw), conv.arrayDelims);
      var xs := Coerce(conv, name, spec, raw).value.value.xs;
      |xs| == |ts| && forall i :: 0 <= i < |ts| ==> conv.parseFloat(ts[i]) == Some(xs[i])
  {
    var v := Strip(raw);
    TokensAreWords(v, conv.arrayDelims);
    if spec.toDb.Some? {
      TokensAreWords(spec.toDb.value(v), conv.arrayDelims);
    }
  }

  /** Only an untyped parameter without to_db is skipped; the others always
      produce a value unless a float does not parse. */
  lemma SkippedIffUntyped(conv: Conversions, name: string, spec: ParamSpec, raw: string)
    ensures Coerce(conv, name, spec, raw) == Success(None) <==>
      spec.fieldType.NoField? && spec.toDb.None?
    ensures Coerce(conv, name, spec, raw).Failure? ==> spec.fieldType.FloatArrayField?
  {
  }

  // ------------------------------------------------------------ storing

  /** The defaults written by the first loop, in PARAMS iteration order:
      (column, default) for each parameter of the mode that has one. */
  function DefaultWrites(cat: Catalog, mode: string, order: seq<string>): (w: seq<(string, Value)>)
    requires forall k :: 0 <= k < |order| ==> order[k] in cat.params
    ensures |w| <= |order|
  {
    if order == [] then []
    else
      var p := cat.params[order[0]];
      var rest := DefaultWrites(cat, mode, order[1..]);
      if mode in p.modes && p.default.Some? then [(p.column, p.default.value)] + rest else rest
  }

  /** The writes of the second loop, in params iteration order; an unknown
      name or an unparsable float stops it with its error. */
  function UserWrites(cat: Catalog, conv: Conversions, params: map<string, string>, order: seq<string>)
    : Result<seq<(string, Value)>, StoreError>
    requires forall k :: 0 <= k < |order| ==> order[k] in params
  {
    if order == [] then Success([])
    else
      var name := order[0];
      if name !in cat.params then Failure(UnknownParameter(name))
      else
        var c :- Coerce(conv, name, cat.params[name], params[name]);
        var rest :- UserWrites(cat, conv, params, order[1..]);
        Success(if c.Some? then [(cat.params[name].column, c.value)] + rest else rest)
  }

  /** The second loop's effect on the columns, one parameter at a time. */
  function StoreUser(cols: map<string, Value>, cat: Catalog, conv: Conversions,
                     params: map<string, string>, order: seq<string>): Result<map<string, Value>, StoreError>
    requires forall k :: 0 <= k < |order| ==> order[k] in params
    decreases |order|
  {
    if order == [] then Success(cols)
    else
      var name := order[0];
      if name !in cat.params then Failure(UnknownParameter(name))
      else
        var c :- Coerce(conv, name, cat.params[name], params[name]);
        StoreUser(if c.Some? then cols[cat.params[name].column := c.value] else cols, cat, conv, params, order[1..])
  }

  /** Storing user values one at a time is applying their writes. */
  lemma {:induction false} StoreUserIsApply(cols: map<string, Value>, cat: Catalog, conv: Conversions,
                                            params: map<string, string>, order: seq<string>)
    requires forall k :: 0 <= k < |order| ==> order[k] in params
    ensures UserWrites(cat, conv, params, order).Failure? ==>
      StoreUser(cols, cat, conv, params, order) == Failure(UserWrites(cat, conv, params, order).error)
    ensures UserWrites(cat, conv, params, order).Success? ==>
      StoreUser(cols, cat, conv, params, order) == Success(Apply(cols, UserWrites(cat, conv, params, order).value))
    decreases |order|
  {
    if order != [] {
      var name := order[0];
      assert forall k :: 0 <= k < |order[1..]| ==> order[1..][k] == order[k + 1];
      if name in cat.params {
        var c := Coerce(conv, name, cat.params[name], params[name]);
        if c.Success? {
          var next := if c.value.Some? then cols[cat.params[name].column := c.value.value] else cols;
          StoreUserIsApply(next, cat, conv, params, order[1..]);
        }
      }
    }
  }

  /** The closing fix-up: period and damping only apply to spectral
      acceleration. */
  function NormalizeImt(cols: map<string, Value>): map<string, Value> {
    if "imt" in cols && cols["imt"] == VStr("sa") then cols
    else cols["period" := VNone]["damping" := VNone]
  }

  /** The outcome of _store_input_parameters on a profile with columns cols. */
  function Stored(cols: map<string, Value>, cat: Catalog, conv: Conversions, mode: string,
                  params: map<string, string>, paramOrder: seq<string>, userOrder: seq<string>)
    : Result<map<string, Value>, StoreError>
    requires forall k :: 0 <= k < |paramOrder| ==> paramOrder[k] in cat.params
    requires forall k :: 0 <= k < |userOrder| ==> userOrder[k] in params
  {
    var user :- UserWrites(cat, conv, params, userOrder);
    Success(NormalizeImt(Apply(Apply(cols, DefaultWrites(cat, mode, paramOrder)), user)))
  }

  /** _store_input_parameters: the defaults loop, the user-values loop, the
      imt fix-up. The iteration orders of PARAMS and params are inputs. On
      an error the profile is left as the loops had got it, which the
      enclosing transaction discards. */
  method StoreInputParameters(jp: JobProfile, cat: Catalog, conv: Conversions, mode: string,
                              params: map<string, string>, paramOrder: seq<string>, userOrder: seq<string>)
    returns (err: Option<StoreError>)
    requires IsOrderOf(paramOrder, cat.params) && IsOrderOf(userOrder, params)
    modifies jp
    ensures var s := Stored(old(jp.columns), cat, conv, mode, params, paramOrder, userOrder);
      (err.None? <==> s.Success?) &&
      (err.Some? ==> err.value == s.error) &&
      (err.None? ==> jp.columns == s.value)
  {
    StoreDefaults(jp, cat, mode, paramOrder);
    var afterDefaults := jp.columns;
    err := StoreUserValues(jp, cat, conv, params, userOrder);
    StoreUserIsApply(afterDefaults, cat, conv, params, userOrder);
    if err.Some? {
      return;
    }
    var imt := if "imt" in jp.columns then jp.columns["imt"] else VNone;
    if imt != VStr("sa") {
      jp.columns := jp.columns["period" := VNone]["damping" := VNone];
    }
  }

  /** The first loop: every parameter of the mode with a default writes it. */
  method StoreDefaults(jp: JobProfile, cat: Catalog, mode: string, paramOrder: seq<string>)
    requires forall k :: 0 <= k < |paramOrder| ==> paramOrder[k] in cat.params
    modifies jp
    ensures jp.columns == Apply(old(jp.columns), DefaultWrites(cat, mode, paramOrder))
  {
    var i := 0;
    while i < |paramOrder|
      invariant 0 <= i <= |paramOrder|
      invariant Apply(jp.columns, DefaultWrites(cat, mode, paramOrder[i..])) ==
                Apply(old(jp.columns), DefaultWrites(cat, mode, paramOrder))
    {
      assert paramOrder[i..][1..] == paramOrder[i + 1..];
      var p := cat.params[paramOrder[i]];
      if mode in p.modes && p.default.Some? {
        jp.columns := jp.columns[p.column := p.default.value];
      }
      i := i + 1;
    }
  }

  /** The second loop: every user parameter's coerced value goes to its
      column, until a name is unknown or a float does not parse. */
  method StoreUserValues(jp: JobProfile, cat: Catalog, conv: Conversions,
                         params: map<string, string>, userOrder: seq<string>)
    returns (err: Option<StoreError>)
    requires forall k :: 0 <= k < |userOrder| ==> userOrder[k] in params
    modifies jp
    ensures var s := StoreUser(old(jp.columns), cat, conv, params, userOrder);
      (err.None? <==> s.Success?) &&
      (err.Some? ==> err.value == s.error) &&
      (err.None? ==> jp.columns == s.value)
  {
    var i := 0;
    while i < |userOrder|
      invariant 0 <= i <= |userOrder|
      invariant StoreUser(jp.columns, cat, conv, params, userOrder[i..]) ==
                StoreUser(old(jp.columns), cat, conv, params, userOrder)
    {
      assert userOrder[i..][1..] == userOrder[i + 1..];
      var name := userOrder[i];
      if name !in cat.params {
        return Some(UnknownParameter(name));
      }
      var spec := cat.params[name];
      var c := Coerce(conv, name, spec, params[name]);
      if c.Failure? {
        return Some(c.error);
      }
      if c.value.Some? {
        jp.columns := jp.columns[spec.column := c.value.value];
      }
      i := i + 1;
    }
    assert userOrder[i..] == [];
    return None;
  }

  // ------------------------------------------------------------ properties

  /** A user write never lands in a column no listed parameter owns. */
  lemma {:induction false} UserWritesAvoid(cat: Catalog, conv: Conversions, params: map<string, string>,
                                           order: seq<string>, col: string)
    requires forall k :: 0 <= k < |order| ==> order[k] in params
    requires forall k :: 0 <= k < |order| && order[k] in cat.params ==> cat.params[order[k]].column != col
    requires UserWrites(cat, conv, params, order).Success?
    ensures forall i :: 0 <= i < |UserWrites(cat, conv, params, order).value| ==>
      UserWrites(cat, conv, params, order).value[i].0 != col
  {
    if order != [] {
      assert forall k :: 0 <= k < |order[1..]| ==> order[1..][k] == order[k + 1];
      UserWritesAvoid(cat, conv, params, order[1..], col);
    }
  }

  /** One step of the second loop: a successful run over order stores its
      head's coerced value, if any, before the writes of the rest. */
  lemma UserWritesStep(cat: Catalog, conv: Conversions, params: map<string, string>, order: seq<string>)
    requires order != [] && forall k :: 0 <= k < |order| ==> order[k] in params
    requires UserWrites(cat, conv, params, order).Success?
    ensures order[0] in cat.params
    ensures var c := Coerce(conv, order[0], cat.params[order[0]], params[order[0]]);
      var rest := UserWrites(cat, conv, params, order[1..]);
      c.Success? && rest.Success? &&
      UserWrites(cat, conv, params, order).value ==
        if c.value.Some? then [(cat.params[order[0]].column, c.value.value)] + rest.value else rest.value
  {
  }

  /** The user's value for a parameter ends up in its column. */
  lemma {:induction false} UserWriteLands(cat: Catalog, conv: Conversions, params: map<string, string>,
                                          order: seq<string>, m: map<string, Value>, name: string, v: Value)
    requires ColumnsDistinct(cat)
    requires NoDup(order) && forall k :: 0 <= k < |order| ==> order[k] in params
    requires name in order && name in cat.params
    requires Coerce(conv, name, cat.params[name], params[name]) == Success(Some(v))
    requires UserWrites(cat, conv, params, order).Success?
    ensures var cols := Apply(m, UserWrites(cat, conv, params, order).value);
      cat.params[name].column in cols && cols[cat.params[name].column] == v
  {
    var rest := order[1..];
    assert forall k :: 0 <= k < |rest| ==> rest[k] == order[k + 1];
    UserWritesStep(cat, conv, params, order);
    if order[0] == name {
      LaterColumnsDiffer(cat, order);
      UserWriteLandsFirst(cat, conv, params, order, m, v);
    } else {
      var head := order[0];
      var c := Coerce(conv, head, cat.params[head], params[head]).value;
      var wr := UserWrites(cat, conv, params, rest).value;
      var next := if c.Some? then m[cat.params[head].column := c.value] else m;
      assert Apply(m, UserWrites(cat, conv, params, order).value) == Apply(next, wr);
      assert NoDup(rest) && name in rest;
      UserWriteLands(cat, conv, params, rest, next, name, v);
    }
  }

  /** The case of UserWriteLands where the parameter comes first: no later
      parameter writes its column. */
  lemma UserWriteLandsFirst(cat: Catalog, conv: Conversions, params: map<string, string>,
                            order: seq<string>, m: map<string, Value>, v: Value)
    requires order != [] && forall k :: 0 <= k < |order| ==> order[k] in params
    requires order[0] in cat.params
    requires forall k :: 0 <= k < |order[1..]| && order[1..][k] in cat.params ==>
      cat.params[order[1..][k]].column != cat.params[order[0]].column
    requires Coerce(conv, order[0], cat.params[order[0]], params[order[0]]) == Success(Some(v))
    requires UserWrites(cat, conv, params, order).Success?
    ensures var cols := Apply(m, UserWrites(cat, conv, params, order).value);
      cat.params[order[0]].column in cols && cols[cat.params[order[0]].column] == v
  {
    var col := cat.params[order[0]].column;
    assert forall k :: 0 <= k < |order[1..]| ==> order[1..][k] == order[k + 1];
    UserWritesFirst(cat, conv, params, order, v);
    var w := UserWrites(cat, conv, params, order).value;
    var wr := UserWrites(cat, conv, params, order[1..]).value;
    UserWritesAvoid(cat, conv, params, order[1..], col);
    assert w[0] == (col, v);
    forall i | 1 <= i < |w| ensures w[i].0 != col {
      assert w[i] == wr[i - 1];
    }
    ApplyFirstWins(m, w, col, v);
  }

  /** A run whose first parameter coerces to v writes v to its column first. */
  lemma UserWritesFirst(cat: Catalog, conv: Conversions, params: map<string, string>,
                        order: seq<string>, v: Value)
    requires order != [] && forall k :: 0 <= k < |order| ==> order[k] in params
    requires order[0] in cat.params
    requires Coerce(conv, order[0], cat.params[order[0]], params[order[0]]) == Success(Some(v))
    requires UserWrites(cat, conv, params, order).Success?
    ensures UserWrites(cat, conv, params, order[1..]).Success?
    ensures UserWrites(cat, conv, params, order).value ==
      [(cat.params[order[0]].column, v)] + UserWrites(cat, conv, params, order[1..]).value
  {
    UserWritesStep(cat, conv, params, order);
  }

  /** In a duplicate-free order, no later parameter shares the first one's
      column. */
  lemma LaterColumnsDiffer(cat: Catalog, order: seq<string>)
    requires ColumnsDistinct(cat) && NoDup(order)
    requires order != [] && order[0] in cat.params
    ensures forall k :: 0 <= k < |order[1..]| && order[1..][k] in cat.params ==>
      cat.params[order[1..][k]].column != cat.params[order[0]].column
  {
    forall k | 0 <= k < |order[1..]| && order[1..][k] in cat.params
      ensures cat.params[order[1..][k]].column != cat.params[order[0]].column
    {
      assert order[1..][k] == order[k + 1] != order[0];
    }
  }

  /** The imt fix-up only touches period and damping, and clears both unless
      imt is spectral acceleration. */
  lemma NormalizeImtEffect(cols: map<string, Value>)
    ensures forall c :: c in cols && c != "period" && c != "damping" ==>
      c in NormalizeImt(cols) && NormalizeImt(cols)[c] == cols[c]
    ensures !("imt" in cols && cols["imt"] == VStr("sa")) ==>
      NormalizeImt(cols)["period"] == VNone && NormalizeImt(cols)["damping"] == VNone
    ensures "imt" in cols && cols["imt"] == VStr("sa") ==> NormalizeImt(cols) == cols
  {
  }

  /** The user's value wins over the default: a stored parameter's column
      holds the value coerced from the user's text (period and damping
      aside, which the fix-up may clear). */
  lemma UserValueWins(cols: map<string, Value>, cat: Catalog, conv: Conversions, mode: string,
                      params: map<string, string>, paramOrder: seq<string>, userOrder: seq<string>,
                      name: string, v: Value)
    requires ColumnsDistinct(cat)
    requires IsOrderOf(paramOrder, cat.params) && IsOrderOf(userOrder, params)
    requires name in params && name in cat.params
    requires Coerce(conv, name, cat.params[name], params[name]) == Success(Some(v))
    requires cat.params[name].column != "period" && cat.params[name].column != "damping"
    requires Stored(cols, cat, conv, mode, params, paramOrder, userOrder).Success?
    ensures var out := Stored(cols, cat, conv, mode, params, paramOrder, userOrder).value;
      cat.params[name].column in out && out[cat.params[name].column] == v
  {
    var afterDefaults := Apply(cols, DefaultWrites(cat, mode, paramOrder));
    UserWriteLands(cat, conv, params, userOrder, afterDefaults, name, v);
    NormalizeImtEffect(Apply(afterDefaults, UserWrites(cat, conv, params, userOrder).value));
  }

  /** The last default written to a column is the one it keeps. */
  lemma {:induction false} DefaultWriteLands(cat: Catalog, mode: string, order: seq<string>,
                                             m: map<string, Value>, name: string)
    requires ColumnsDistinct(cat)
    requires NoDup(order) && forall k :: 0 <= k < |order| ==> order[k] in cat.params
    requires name in order && mode in cat.params[name].modes && cat.params[name].default.Some?
    ensures var cols := Apply(m, DefaultWrites(cat, mode, order));
      cat.params[name].column in cols && cols[cat.params[name].column] == cat.params[name].default.value
  {
    var p := cat.params[name];
    var rest := order[1..];
    assert forall k :: 0 <= k < |rest| ==> rest[k] == order[k + 1];
    var wr := DefaultWrites(cat, mode, rest);
    if order[0] == name {
      assert name !in rest;
      DefaultWritesAvoid(cat, mode, rest, p.column);
      ApplyLaterWins(m, [], p.column, p.default.value, wr);
      assert [] + [(p.column, p.default.value)] + wr == DefaultWrites(cat, mode, order);
    } else {
      var q := cat.params[order[0]];
      if mode in q.modes && q.default.Some? {
        DefaultWriteLands(cat, mode, rest, m[q.column := q.default.value], name);
      } else {
        DefaultWriteLands(cat, mode, rest, m, name);
      }
    }
  }

  /** A default write never lands in a column no listed parameter owns. */
  lemma {:induction false} DefaultWritesAvoid(cat: Catalog, mode: string, order: seq<string>, col: string)
    requires forall k :: 0 <= k < |order| ==> order[k] in cat.params && cat.params[order[k]].column != col
    ensures forall i :: 0 <= i < |DefaultWrites(cat, mode, order)| ==> DefaultWrites(cat, mode, order)[i].0 != col
  {
    if order != [] {
      assert forall k :: 0 <= k < |order[1..]| ==> order[1..][k] == order[k + 1];
      DefaultWritesAvoid(cat, mode, order[1..], col);
    }
  }

  /** A parameter of the mode that the user did not set keeps its default. */
  lemma DefaultWhenNotGiven(cols: map<string, Value>, cat: Catalog, conv: Conversions, mode: string,
                            params: map<string, string>, paramOrder: seq<string>, userOrder: seq<string>,
                            name: string)
    requires ColumnsDistinct(cat)
    requires IsOrderOf(paramOrder, cat.params) && IsOrderOf(userOrder, params)
    requires name in cat.params && name !in params
    requires mode in cat.params[name].modes && cat.params[name].default.Some?
    requires cat.params[name].column != "period" && cat.params[name].column != "damping"
    requires Stored(cols, cat, conv, mode, params, paramOrder, userOrder).Success?
    ensures var out := Stored(cols, cat, conv, mode, params, paramOrder, userOrder).value;
      cat.params[name].column in out && out[cat.params[name].column] == cat.params[name].default.value
  {
    var col := cat.params[name].column;
    var afterDefaults := Apply(cols, DefaultWrites(cat, mode, paramOrder));
    DefaultWriteLands(cat, mode, paramOrder, cols, name);
    var w := UserWrites(cat, conv, params, userOrder).value;
    UserWritesAvoid(cat, conv, params, userOrder, col);
    ApplyUntouched(afterDefaults, w, col);
    NormalizeImtEffect(Apply(afterDefaults, w));
  }

  /** A parameter the registry does not know makes storing fail. */
  lemma {:induction false} UnknownParameterFails(cat: Catalog, conv: Conversions, params: map<string, string>,
                                                 order: seq<string>, name: string)
    requires forall k :: 0 <= k < |order| ==> order[k] in params
    requires name in order && name !in cat.params
    ensures UserWrites(cat, conv, params, order).Failure?
  {
    if order[0] != name {
      UnknownParameterFails(cat, conv, params, order[1..], name);
    }
  }

  /** A user parameter the second loop gets past: registered, and coercible. */
  predicate Storable(cat: Catalog, conv: Conversions, params: map<string, string>, name: string)
    requires name in params
  {
    name in cat.params && Coerce(conv, name, cat.params[name], params[name]).Success?
  }

  /** Storing succeeds exactly when every user parameter is registered and
      every float array parses. */
  lemma {:induction false} StoreSucceedsIff(cat: Catalog, conv: Conversions, params: map<string, string>,
                                            order: seq<string>)
    requires forall k :: 0 <= k < |order| ==> order[k] in params
    ensures UserWrites(cat, conv, params, order).Success? <==>
      forall k :: 0 <= k < |order| ==> Storable(cat, conv, params, order[k])
  {
    if order != [] {
      var rest := order[1..];
      assert forall k :: 0 <= k < |rest| ==> rest[k] == order[k + 1];
      StoreSucceedsIff(cat, conv, params, rest);
      if !Storable(cat, conv, params, order[0]) {
        assert UserWrites(cat, conv, params, order).Failure?;
      } else {
        assert (forall k :: 0 <= k < |order| ==> Storable(cat, conv, params, order[k])) <==>
          (forall k :: 0 <= k < |rest| ==> Storable(cat, conv, params, rest[k]));
      }
    }
  }

  // ------------------------------------------------------------ job type

  /** [s.lower() for s in sections if s.upper() in (HAZARD, RISK)] */
  function JobType(sections: seq<string>): (r: seq<string>)
    ensures |r| <= |sections|
  {
    if sections == [] then []
    else
      var s := sections[0];
      var rest := JobType(sections[1..]);
      if Upper(s) == "HAZARD" || Upper(s) == "RISK" then [Lower(s)] + rest else rest
  }

  /** A section whose upper-cased name is w. */
  predicate HasSection(sections: seq<string>, w: string) {
    exists k :: 0 <= k < |sections| && Upper(sections[k]) == w
  }

  /** The job type lists "hazard" and "risk" only. */
  lemma {:induction false} JobTypeWords(sections: seq<string>)
    ensures forall t :: t in JobType(sections) ==> t == "hazard" || t == "risk"
  {
    if sections != [] {
      var s := sections[0];
      JobTypeWords(sections[1..]);
      if Upper(s) == "HAZARD" {
        LowerOfUpperWord(s, "HAZARD");
        LowerHazard();
      } else if Upper(s) == "RISK" {
        LowerOfUpperWord(s, "RISK");
        LowerRisk();
      }
    }
  }

  /** The job type lists a kind exactly when a section of that name, in any
      letter case, is present. */
  lemma {:induction false} JobTypeHas(sections: seq<string>, w: string, lw: string)
    requires (w == "HAZARD" && lw == "hazard") || (w == "RISK" && lw == "risk")
    ensures lw in JobType(sections) <==> HasSection(sections, w)
  {
    if sections != [] {
      var s := sections[0];
      var rest := sections[1..];
      JobTypeHas(rest, w, lw);
      HasSectionCons(sections, w);
      SectionKind(s, w, lw);
    }
  }

  /** The head's entry in the job type names kind lw exactly when the head's
      upper-cased name is w. */
  lemma SectionKind(s: string, w: string, lw: string)
    requires (w == "HAZARD" && lw == "hazard") || (w == "RISK" && lw == "risk")
    ensures (Upper(s) == "HAZARD" || Upper(s) == "RISK") ==> (Lower(s) == lw <==> Upper(s) == w)
  {
    if Upper(s) == "HAZARD" {
      LowerOfUpperWord(s, "HAZARD");
      LowerHazard();
    } else if Upper(s) == "RISK" {
      LowerOfUpperWord(s, "RISK");
      LowerRisk();
    }
  }

  lemma HasSectionCons(sections: seq<string>, w: string)
    requires sections != []
    ensures HasSection(sections, w) <==> Upper(sections[0]) == w || HasSection(sections[1..], w)
  {
    var rest := sections[1..];
    if HasSection(sections, w) {
      var k :| 0 <= k < |sections| && Upper(sections[k]) == w;
      if k > 0 {
        assert Upper(rest[k - 1]) == w;
      }
    }
    if HasSection(rest, w) {
      var k :| 0 <= k < |rest| && Upper(rest[k]) == w;
      assert Upper(sections[k + 1]) == w;
    }
  }

  lemma LowerHazard()
    ensures Lower("HAZARD") == "hazard"
  {
    assert Lower("HAZARD")[0] == 'h' && Lower("HAZARD")[1] == 'a' && Lower("HAZARD")[2] == 'z';
    assert Lower("HAZARD")[3] == 'a' && Lower("HAZARD")[4] == 'r' && Lower("HAZARD")[5] == 'd';
  }

  lemma LowerRisk()
    ensures Lower("RISK") == "risk"
  {
    assert Lower("RISK")[0] == 'r' && Lower("RISK")[1] == 'i';
    assert Lower("RISK")[2] == 's' && Lower("RISK")[3] == 'k';
  }

  // ------------------------------------------------------------ source models

  /** An element etree.iterparse reports: its qualified tag and its text. */
  datatype Element = Element(tag: string, text: string)

  /** Whether an element names a source model file, and which. */
  predicate NamesModel(nrml: string, e: Element) {
    e.tag == nrml + "uncertaintyModel" && EndsWith(Strip(e.text), ".xml")
  }

  /** The source models a logic tree lists, as paths joined onto the logic
      tree's directory (the reference for _get_source_models). */
  function SourceModels(cwd: string, nrml: string, logicTree: string, elements: seq<Element>): seq<string> {
    if !EndsWith(logicTree, ".xml") then []
    else
      var base := Dirname(AbsPath(cwd, logicTree));
      ModelPaths(base, nrml, elements)
  }

  function ModelPaths(base: string, nrml: string, elements: seq<Element>): (r: seq<string>)
    ensures |r| <= |elements|
  {
    if elements == [] then []
    else
      var rest := ModelPaths(base, nrml, elements[1..]);
      if NamesModel(nrml, elements[0]) then [ModelPath(base, elements[0])] + rest else rest
  }

  /** _get_source_models: a loop over the parsed elements that collects the
      model paths. */
  method GetSourceModels(cwd: string, nrml: string, logicTree: string, elements: seq<Element>)
    returns (models: seq<string>)
    ensures models == SourceModels(cwd, nrml, logicTree, elements)
  {
    if !EndsWith(logicTree, ".xml") {
      return [];
    }
    var base := Dirname(AbsPath(cwd, logicTree));
    models := [];
    var tag := nrml + "uncertaintyModel";
    var i := 0;
    while i < |elements|
      invariant 0 <= i <= |elements|
      invariant models + ModelPaths(base, nrml, elements[i..]) == ModelPaths(base, nrml, elements)
    {
      assert elements[i..][1..] == elements[i + 1..];
      var e := elements[i];
      if e.tag == tag {
        var text := Strip(e.text);
        if EndsWith(text, ".xml") {
          models := models + [Join(base, text)];
        }
      }
      i := i + 1;
    }
    assert elements[i..] == [];
  }

  lemma EndsWithTrans(s: string, t: string, suffix: string)
    requires EndsWith(s, t) && EndsWith(t, suffix)
    ensures EndsWith(s, suffix)
  {
    assert s[|s| - |suffix|..] == t[|t| - |suffix|..];
  }

  /** Whether p is the path of a model element among elements. */
  predicate ListedModel(base: string, nrml: string, elements: seq<Element>, p: string) {
    exists k :: 0 <= k < |elements| && NamesModel(nrml, elements[k]) && p == ModelPath(base, elements[k])
  }

  /** os.path.join(base_path, elem.text.strip()) */
  function ModelPath(base: string, e: Element): string {
    Join(base, Strip(e.text))
  }

  /** No model is listed for a logic tree that is not an .xml file; every
      path found is an .xml file, and the paths found are exactly those of
      the model elements. */
  lemma SourceModelsContents(cwd: string, nrml: string, logicTree: string, elements: seq<Element>)
    ensures !EndsWith(logicTree, ".xml") ==> SourceModels(cwd, nrml, logicTree, elements) == []
    ensures forall p :: p in SourceModels(cwd, nrml, logicTree, elements) ==> EndsWith(p, ".xml")
    ensures EndsWith(logicTree, ".xml") ==>
      forall p :: p in SourceModels(cwd, nrml, logicTree, elements) <==>
        ListedModel(Dirname(AbsPath(cwd, logicTree)), nrml, elements, p)
  {
    if EndsWith(logicTree, ".xml") {
      var base := Dirname(AbsPath(cwd, logicTree));
      ModelPathsAreXml(base, nrml, elements);
      ModelPathsListed(base, nrml, elements);
    }
  }

  lemma {:induction false} ModelPathsAreXml(base: string, nrml: string, elements: seq<Element>)
    ensures forall p :: p in ModelPaths(base, nrml, elements) ==> EndsWith(p, ".xml")
  {
    if elements != [] {
      ModelPathsAreXml(base, nrml, elements[1..]);
      var e := elements[0];
      if NamesModel(nrml, e) {
        var t := Strip(e.text);
        if !IsAbs(t) {
          EndsWithTrans(Join(base, t), t, ".xml");
        }
      }
    }
  }

  lemma {:induction false} ModelPathsListed(base: string, nrml: string, elements: seq<Element>)
    ensures forall p :: p in ModelPaths(base, nrml, elements) <==> ListedModel(base, nrml, elements, p)
  {
    if elements != [] {
      var rest := elements[1..];
      ModelPathsListed(base, nrml, rest);
      forall p ensures ListedModel(base, nrml, elements, p) <==>
        (NamesModel(nrml, elements[0]) && p == ModelPath(base, elements[0])) || ListedModel(base, nrml, rest, p)
      {
        ListedModelCons(base, nrml, elements, p);
      }
    }
  }

  lemma ListedModelCons(base: string, nrml: string, elements: seq<Element>, p: string)
    requires elements != []
    ensures ListedModel(base, nrml, elements, p) <==>
      (NamesModel(nrml, elements[0]) && p == ModelPath(base, elements[0])) || ListedModel(base, nrml, elements[1..], p)
  {
    if ListedModel(base, nrml, elements, p) {
      ListedModelHeadOrTail(base, nrml, elements, p);
    }
    if ListedModel(base, nrml, elements[1..], p) {
      ListedModelTail(base, nrml, elements, p);
    }
  }

  lemma ListedModelHeadOrTail(base: string, nrml: string, elements: seq<Element>, p: string)
    requires elements != [] && ListedModel(base, nrml, elements, p)
    ensures (NamesModel(nrml, elements[0]) && p == ModelPath(base, elements[0])) || ListedModel(base, nrml, elements[1..], p)
  {
    var k :| 0 <= k < |elements| && NamesModel(nrml, elements[k]) && p == ModelPath(base, elements[k]);
    if k > 0 {
      var rest := elements[1..];
      assert rest[k - 1] == elements[k];
      assert NamesModel(nrml, rest[k - 1]) && p == ModelPath(base, rest[k - 1]);
    }
  }

  lemma ListedModelTail(base: string, nrml: string, elements: seq<Element>, p: string)
    requires elements != [] && ListedModel(base, nrml, elements[1..], p)
    ensures ListedModel(base, nrml, elements, p)
  {
    var rest := elements[1..];
    var k :| 0 <= k < |rest| && NamesModel(nrml, rest[k]) && p == ModelPath(base, rest[k]);
    assert rest[k] == elements[k + 1];
    assert NamesModel(nrml, elements[k + 1]) && p == ModelPath(base, elements[k + 1]);
  }
}
