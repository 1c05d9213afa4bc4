/** The parameter registry the engine consults (PARAMS, PATH_PARAMS,
    CALCULATION_MODE of openquake.job.params). Its contents are defined outside
    the modelled code, so a Catalog value stands for them. */
module ParamCatalog {
  import opened Results

  /** The Python values a parameter takes once coerced or transformed. */
  datatype Value =
    | VNone
    | VBool(b: bool)
    | VStr(s: string)
    | VReal(x: real)
    | VStrList(ss: seq<string>)
    | VRealList(xs: seq<real>)
    | VGeometry(ewkt: string)

  /** The Django field class recorded as a parameter's type (None is NoField). */
  datatype FieldType =
    | BooleanField
    | NullBooleanField
    | PolygonField
    | MultiPointField
    | FloatArrayField
    | CharArrayField
    | NoField
    | OtherField(name: string)

  /** One PARAMS entry: the calculation modes it applies to, its column type,
      its default, the job-profile column it is stored in, and its optional
      to_db / to_job transforms. */
  datatype ParamSpec = ParamSpec(
    modes: set<string>,
    fieldType: FieldType,
    default: Option<Value>,
    column: string,
    toDb: Option<string -> string>,
    toJob: Option<string -> Value>)

  /** PARAMS (by name), PATH_PARAMS (in its iteration order) and
      CALCULATION_MODE (config spelling -> mode tag). */
  datatype Catalog = Catalog(
    params: map<string, ParamSpec>,
    pathParams: seq<string>,
    calculationModes: map<string, string>)

  /** Each parameter is stored in a column of its own: the job-profile table
      has one field per registered parameter. */
  predicate ColumnsDistinct(cat: Catalog) {
    forall n1, n2 :: n1 in cat.params && n2 in cat.params && n1 != n2 ==>
      cat.params[n1].column != cat.params[n2].column
  }

  /** A parameter that applies to the given calculation mode. */
  predicate Legal(cat: Catalog, mode: string, name: string) {
    name in cat.params && mode in cat.params[name].modes
  }

  const BasePathKey := "BASE_PATH"
  const CalculationModeKey := "CALCULATION_MODE"
  const ComputeMeanKey := "COMPUTE_MEAN_HAZARD_CURVE"
}
