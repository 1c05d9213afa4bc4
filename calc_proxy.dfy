/** The object every calculator receives (CalculationProxy in
    openquake/engine.py), with the site selection it performs and
    read_sites_from_exposure. The geometry library, the exposure reader, the
    file system and the key-value store's key scheme are supplied from
    outside. */
module CalcProxy {
  import opened Results
  import opened Seqs
  import opened Strings
  import opened Paths
  import opened ParamCatalog
  import opened Writes

  /** shapes.Site */
  datatype Site = Site(longitude: real, latitude: real)

  /** A region of interest: its (longitude, latitude) vertices and the
      float of the grid spacing written in the configuration. */
  datatype Constraint = Constraint(vertices: seq<(real, real)>, cellSize: real)

  /** What the proxy calls out to. */
  datatype Externals = Externals(
    gridSites: (seq<(real, real)>, Value) -> seq<Site>,      // iterating shapes.Region
    exposureSites: (string, Option<Constraint>) -> Option<seq<Site>>,  // the exposure reader's filter; None: no such file
    files: map<string, string>,                              // path -> contents
    blobKey: (int, string) -> string,                        // kvs.tokens.generate_blob_key
    parseFloat: string -> Option<real>)                      // float(text); None is a ValueError

  datatype ProxyError =
    | MissingKey(key: string)        // KeyError
    | NotCoordinates(name: string)   // the parameter is not a list of numbers
    | NoBasePath                     // os.path.join(None, ...)
    | FileMissing(path: string)      // IOError
    | NoSuchCalculation(id: int)     // OqCalculation.DoesNotExist
    | NotAFloat(name: string)        // float() raising TypeError or ValueError

  const RiskSection := "RISK"
  const ExposureFlag := "COMPUTE_HAZARD_AT_ASSETS_LOCATIONS"
  const SitesKey := "SITES"
  const RegionVertexKey := "REGION_VERTEX"
  const GridSpacingKey := "REGION_GRID_SPACING"
  const ExposureKey := "EXPOSURE"
  const LevelsKey := "INTENSITY_MEASURE_LEVELS"

  // ------------------------------------------------------------ coordinates

  /** xs[::2] */
  function Evens<T>(xs: seq<T>): (r: seq<T>)
    ensures |r| == (|xs| + 1) / 2
    ensures forall i :: 0 <= i < |r| ==> r[i] == xs[2 * i]
    decreases |xs|
  {
    if xs == [] then [] else if |xs| == 1 then [xs[0]] else [xs[0]] + Evens(xs[2..])
  }

  /** xs[1::2] */
  function Odds<T>(xs: seq<T>): (r: seq<T>)
    ensures |r| == |xs| / 2
    ensures forall i :: 0 <= i < |r| ==> r[i] == xs[2 * i + 1]
  {
    if xs == [] then [] else Evens(xs[1..])
  }

  /** zip(a, b): pairs up to the shorter length. */
  function Zip<A, B>(a: seq<A>, b: seq<B>): (r: seq<(A, B)>)
    ensures |r| == if |a| <= |b| then |a| else |b|
    ensures forall i :: 0 <= i < |r| ==> r[i] == (a[i], b[i])
  {
    if a == [] || b == [] then [] else [(a[0], b[0])] + Zip(a[1..], b[1..])
  }

  /** zip(verts[1::2], verts[::2]): the configuration lists latitude before
      longitude, the pairs put longitude first; an odd trailing value is
      dropped. */
  function Coords(verts: seq<real>): seq<(real, real)> {
    Zip(Odds(verts), Evens(verts))
  }

  lemma CoordsSwapPairs(verts: seq<real>)
    ensures |Coords(verts)| == |verts| / 2
    ensures forall i :: 0 <= i < |verts| / 2 ==> Coords(verts)[i] == (verts[2 * i + 1], verts[2 * i])
  {
  }

  /** Site(coord[0], coord[1]) for each coordinate. */
  function SitesOf(coords: seq<(real, real)>): (r: seq<Site>)
    ensures |r| == |coords|
    ensures forall i :: 0 <= i < |r| ==> r[i] == Site(coords[i].0, coords[i].1)
  {
    if coords == [] then [] else [Site(coords[0].0, coords[0].1)] + SitesOf(coords[1..])
  }

  /** SITES = 37.5,-122.2 37.5,-122.1 gives the sites at longitudes -122.2 and
      -122.1, latitude 37.5, in that order. */
  lemma SitesScenario()
    ensures SitesOf(Coords([37.5, -122.2, 37.5, -122.1])) == [Site(-122.2, 37.5), Site(-122.1, 37.5)]
  {
    var c := Coords([37.5, -122.2, 37.5, -122.1]);
    CoordsSwapPairs([37.5, -122.2, 37.5, -122.1]);
    assert c == [(-122.2, 37.5), (-122.1, 37.5)];
  }

  /** float(v) of a parameter's Python value: text is parsed, a number is
      itself (True is 1.0), None, lists and geometries raise TypeError. */
  function ToFloat(v: Value, parseFloat: string -> Option<real>): (r: Option<real>)
    ensures v.VNone? || v.VStrList? || v.VRealList? || v.VGeometry? ==> r.None?
    ensures v.VStr? ==> r == parseFloat(v.s)
    ensures v.VReal? ==> r == Some(v.x)
    ensures v.VBool? ==> r == Some(if v.b then 1.0 else 0.0)
  {
    match v
    case VStr(t) => parseFloat(t)
    case VReal(x) => Some(x)
    case VBool(b) => Some(if b then 1.0 else 0.0)
    case _ => None
  }

  // ------------------------------------------------------------ the proxy

  /** openquake.engine.CalculationProxy. The job profile and calculation
      records it also carries are not modelled. */
  class CalculationProxy {
    const calculationId: int
    var sites: seq<Site>
    var blocksKeys: seq<string>
    var params: map<string, string>
    var sections: seq<string>
    var basePathArg: Option<string>
    var serializeResultsTo: seq<string>

    /** Sections are kept without repetitions; sites and block keys start
        empty. */
    constructor (params: map<string, string>, calculationId: int, sections: seq<string>,
                 basePath: Option<string>, serializeResultsTo: seq<string>)
      ensures this.calculationId == calculationId && this.params == params
      ensures this.sections == Dedup(sections) && this.basePathArg == basePath
      ensures this.serializeResultsTo == serializeResultsTo
      ensures this.sites == [] && this.blocksKeys == []
    {
      this.calculationId := calculationId;
      this.sites := [];
      this.blocksKeys := [];
      this.params := params;
      this.sections := Dedup(sections);
      this.basePathArg := basePath;
      this.serializeResultsTo := serializeResultsTo;
    }

    /** The base_path property: the one given at construction, else the
        BASE_PATH parameter, else None. */
    function BasePath(): (r: Option<string>)
      reads this
      ensures basePathArg.Some? ==> r == basePathArg
      ensures basePathArg.None? ==> (r.Some? <==> BasePathKey in params)
      ensures basePathArg.None? && r.Some? ==> r.value == params[BasePathKey]
    {
      if basePathArg.Some? then basePathArg
      else if BasePathKey in params then Some(params[BasePathKey])
      else None
    }

    /** has(name): the parameter is present with a non-empty value (the
        truth of its text). */
    predicate Has(name: string)
      reads this
      ensures Has(name) ==> name in params && |params[name]| > 0
      ensures name in params && |params[name]| > 0 ==> Has(name)
    {
      name in params && params[name] != ""
    }

    /** __getitem__: the parameter through its to_job transform when it has
        one and is present, the raw value (or None) otherwise. */
    function GetItem(cat: Catalog, name: string): (r: Value)
      reads this
      ensures name !in params ==> r == VNone
      ensures name in params && (name !in cat.params || cat.params[name].toJob.None?) ==>
        r == VStr(params[name])
    {
      if name in params && name in cat.params && cat.params[name].toJob.Some? then
        cat.params[name].toJob.value(params[name])
      else if name in params then VStr(params[name])
      else VNone
    }

    /** __eq__ compares parameters only, so a proxy equals itself whatever
        its sites, sections or id. */
    predicate Equals(other: CalculationProxy)
      reads this, other
      ensures other == this ==> Equals(other)
    {
      params == other.params
    }

    /** The imls property. */
    function Imls(cat: Catalog): (r: Value)
      reads this
      ensures !Has(LevelsKey) ==> r == VNone
      ensures Has(LevelsKey) ==> r == GetItem(cat, LevelsKey)
    {
      if Has(LevelsKey) then GetItem(cat, LevelsKey) else VNone
    }

    /** _extract_coords: the transformed parameter read as lat, lon pairs. */
    function ExtractCoords(cat: Catalog, name: string): (r: Result<seq<(real, real)>, ProxyError>)
      reads this
      ensures r.Success? <==> GetItem(cat, name).VRealList?
      ensures r.Success? ==> r.value == Coords(GetItem(cat, name).xs)
    {
      var verts := GetItem(cat, name);
      if verts.VRealList? then Success(Coords(verts.xs)) else Failure(NotCoordinates(name))
    }

    /** The region property: None without REGION_VERTEX, else a constraint
        on the vertices whose cell size is float() of the configured grid
        spacing. The vertices are extracted first; an absent or unreadable
        spacing then fails. */
    function Region(cat: Catalog, parseFloat: string -> Option<real>): (r: Result<Option<Constraint>, ProxyError>)
      reads this
      ensures !Has(RegionVertexKey) ==> r == Success(None)
      ensures Has(RegionVertexKey) ==>
        (r.Success? <==> ExtractCoords(cat, RegionVertexKey).Success? &&
                         ToFloat(GetItem(cat, GridSpacingKey), parseFloat).Some?)
      ensures Has(RegionVertexKey) && ExtractCoords(cat, RegionVertexKey).Failure? ==>
        r == Failure(ExtractCoords(cat, RegionVertexKey).error)
      ensures Has(RegionVertexKey) && ExtractCoords(cat, RegionVertexKey).Success? &&
              ToFloat(GetItem(cat, GridSpacingKey), parseFloat).None? ==>
        r == Failure(NotAFloat(GridSpacingKey))
      ensures Has(RegionVertexKey) && r.Success? ==>
        r.value.Some? &&
        Success(r.value.value.vertices) == ExtractCoords(cat, RegionVertexKey) &&
        Some(r.value.value.cellSize) == ToFloat(GetItem(cat, GridSpacingKey), parseFloat)
    {
      if !Has(RegionVertexKey) then Success(None)
      else
        var coords :- ExtractCoords(cat, RegionVertexKey);
        match ToFloat(GetItem(cat, GridSpacingKey), parseFloat)
        case None => Failure(NotAFloat(GridSpacingKey))
        case Some(size) => Success(Some(Constraint(coords, size)))
    }

    /** The sites the exposure file lists inside the region, in the order
        the reader reports them (the listing read_sites_from_exposure
        deduplicates). The errors come in the source's order: the EXPOSURE
        lookup, the join onto a missing base path, the region, then the
        file. os.path.join(None, b) returns an absolute b as it is and
        fails only for a relative one. */
    function ExposureListing(cat: Catalog, env: Externals): (r: Result<seq<Site>, ProxyError>)
      reads this
      ensures ExposureKey !in params ==> r == Failure(MissingKey(ExposureKey))
      ensures ExposureKey in params && BasePath().None? && !IsAbs(params[ExposureKey]) ==>
        r == Failure(NoBasePath)
      ensures ExposureKey in params && (BasePath().Some? || IsAbs(params[ExposureKey])) &&
              Region(cat, env.parseFloat).Failure? ==>
        r == Failure(Region(cat, env.parseFloat).error)
      ensures ExposureKey in params && (BasePath().Some? || IsAbs(params[ExposureKey])) &&
              Region(cat, env.parseFloat).Success? ==>
        var path := ExposurePath();
        var listed := env.exposureSites(path, Region(cat, env.parseFloat).value);
        (r.Success? <==> listed.Some?) &&
        (listed.None? ==> r == Failure(FileMissing(path))) &&
        (listed.Some? ==> r == Success(listed.value))
    {
      var base := BasePath();
      if ExposureKey !in params then Failure(MissingKey(ExposureKey))
      else if base.None? && !IsAbs(params[ExposureKey]) then Failure(NoBasePath)
      else
        var path := ExposurePath();
        var constraint :- Region(cat, env.parseFloat);
        match env.exposureSites(path, constraint)
        case None => Failure(FileMissing(path))
        case Some(listed) => Success(listed)
    }

    /** The exposure file's path: EXPOSURE joined onto the base path; an
        absolute EXPOSURE is the path whatever the base path. */
    function ExposurePath(): (path: string)
      requires ExposureKey in params && (BasePath().Some? || IsAbs(params[ExposureKey]))
      reads this
      ensures IsAbs(params[ExposureKey]) ==> path == params[ExposureKey]
      ensures !IsAbs(params[ExposureKey]) ==>
        StartsWith(path, BasePath().value) && EndsWith(path, params[ExposureKey])
    {
      if BasePath().None? then params[ExposureKey] else Join(BasePath().value, params[ExposureKey])
    }

    /** The site-selection policy of sites_to_compute, for an empty cache:
        exposure sites for a risk job asking for them, else the SITES list,
        else the region's grid. */
    function SelectedSites(cat: Catalog, env: Externals): Result<seq<Site>, ProxyError>
      reads this
    {
      if RiskSection in sections && Has(ExposureFlag) then
        var listed :- ExposureListing(cat, env);
        Success(Dedup(listed))
      else if Has(SitesKey) then
        var coords :- ExtractCoords(cat, SitesKey);
        Success(SitesOf(coords))
      else
        var coords :- ExtractCoords(cat, RegionVertexKey);
        Success(env.gridSites(coords, GetItem(cat, GridSpacingKey)))
    }

    /** sites_to_compute: memoised in this.sites, which an empty result does
        not fill (the next call computes again). */
    method SitesToCompute(cat: Catalog, env: Externals) returns (r: Result<seq<Site>, ProxyError>)
      modifies this`sites
      ensures old(sites) != [] ==> r == Success(old(sites)) && sites == old(sites)
      ensures old(sites) == [] ==> r == old(SelectedSites(cat, env))
      ensures old(sites) == [] ==> sites == if r.Success? then r.value else old(sites)
    {
      if sites != [] {
        return Success(sites);
      }
      if RiskSection in sections && Has(ExposureFlag) {
        r := ReadSitesFromExposure(this, cat, env);
      } else if Has(SitesKey) {
        var coords := ExtractCoords(cat, SitesKey);
        if coords.Failure? {
          return Failure(coords.error);
        }
        var found := SitesFromCoords(coords.value);
        r := Success(found);
      } else {
        var coords := ExtractCoords(cat, RegionVertexKey);
        if coords.Failure? {
          return Failure(coords.error);
        }
        r := Success(env.gridSites(coords.value, GetItem(cat, GridSpacingKey)));
      }
      if r.Success? {
        sites := r.value;
      }
    }

    /** Whether a parameter name is one _slurp_files reads a file for. */
    static predicate IsFileKey(key: string) {
      EndsWith(key, "_FILE")
    }

    /** _slurp_files: each *_FILE parameter's file is stored in the
        key-value store under its blob key, which replaces the parameter's
        value; the joined path goes in *_FILE_PATH. Without a base path
        nothing happens. The parameters are visited in the given order (that
        of params.items()); a missing file stops the loop, and what the
        earlier parameters wrote stays written. */
    method SlurpFiles(store: KeyValueStore, env: Externals, order: seq<string>)
      returns (r: Result<(), ProxyError>)
      requires IsOrderOf(order, params)
      modifies this`params, store
      ensures old(BasePath()).None? ==> r == Success(()) && params == old(params) && store.data == old(store.data)
      ensures old(BasePath()).Some? ==>
        var s := Slurp(old(params), old(BasePath()).value, calculationId, env, order,
                       old(params), old(store.data));
        params == s.params && store.data == s.store &&
        (r.Success? <==> s.error.None?) &&
        (r.Failure? ==> Some(r.error) == s.error)
    {
      var base := BasePath();
      if base.None? {
        return Success(());
      }
      var orig := params;
      var data0 := store.data;
      var i := 0;
      while i < |order|
        invariant 0 <= i <= |order|
        invariant Slurp(orig, base.value, calculationId, env, order[i..], params, store.data) ==
                  Slurp(orig, base.value, calculationId, env, order, orig, data0)
      {
        assert order[i..][1..] == order[i + 1..];
        var key := order[i];
        if IsFileKey(key) {
          var path := Join(base.value, orig[key]);
          if path !in env.files {
            return Failure(FileMissing(path));
          }
          var blob := env.files[path];
          var fileKey := env.blobKey(calculationId, blob);
          store.data := store.data[fileKey := blob];
          params := params[key := fileKey][key + "_PATH" := path];
        }
        i := i + 1;
      }
      assert order[i..] == [];
      return Success(());
    }
  }

  /** The transient key-value store the slurped files are written to. */
  class KeyValueStore {
    var data: map<string, string>

    constructor ()
      ensures data == map[]
    {
      data := map[];
    }
  }

  lemma SitesOfAppend(coords: seq<(real, real)>, c: (real, real))
    ensures SitesOf(coords + [c]) == SitesOf(coords) + [Site(c.0, c.1)]
  {
  }

  /** The loop of sites_to_compute that turns the SITES coordinates into
      sites, one (lat, lon) pair at a time. */
  method SitesFromCoords(coords: seq<(real, real)>) returns (found: seq<Site>)
    ensures found == SitesOf(coords)
  {
    found := [];
    var i := 0;
    while i < |coords|
      invariant 0 <= i <= |coords|
      invariant found == SitesOf(coords[..i])
    {
      assert coords[..i + 1] == coords[..i] + [coords[i]];
      SitesOfAppend(coords[..i], coords[i]);
      found := found + [Site(coords[i].0, coords[i].1)];
      i := i + 1;
    }
    assert coords[..i] == coords;
  }

  /** read_sites_from_exposure: the loop that keeps the first occurrence of
      each site the reader lists. */
  method ReadSitesFromExposure(proxy: CalculationProxy, cat: Catalog, env: Externals)
    returns (r: Result<seq<Site>, ProxyError>)
    ensures r.Failure? <==> proxy.ExposureListing(cat, env).Failure?
    ensures r.Failure? ==> r.error == proxy.ExposureListing(cat, env).error
    ensures r.Success? ==> r.value == Dedup(proxy.ExposureListing(cat, env).value)
  {
    var listing := proxy.ExposureListing(cat, env);
    if listing.Failure? {
      return Failure(listing.error);
    }
    var listed := listing.value;
    var found: seq<Site> := [];
    var i := 0;
    while i < |listed|
      invariant 0 <= i <= |listed|
      invariant found == Dedup(listed[..i])
    {
      assert listed[..i + 1][..i] == listed[..i];
      if listed[i] !in found {
        found := found + [listed[i]];
      }
      i := i + 1;
    }
    assert listed[..i] == listed;
    return Success(found);
  }

  // ------------------------------------------------------------ slurping

  /** The parameters and store _slurp_files leaves behind, and the error it
      raised, if any. */
  datatype Slurped = Slurped(params: map<string, string>, store: map<string, string>, error: Option<ProxyError>)

  /** The loop of _slurp_files from the given state: orig is the snapshot
      params.items() was taken from, (cur, kv) the parameters and store so
      far. */
  function Slurp(orig: map<string, string>, base: string, id: int, env: Externals, order: seq<string>,
                 cur: map<string, string>, kv: map<string, string>): Slurped
    requires forall k :: 0 <= k < |order| ==> order[k] in orig
    decreases |order|
  {
    if order == [] then Slurped(cur, kv, None)
    else
      var key := order[0];
      if !CalculationProxy.IsFileKey(key) then Slurp(orig, base, id, env, order[1..], cur, kv)
      else
        var path := Join(base, orig[key]);
        if path !in env.files then Slurped(cur, kv, Some(FileMissing(path)))
        else
          var blob := env.files[path];
          var fileKey := env.blobKey(id, blob);
          Slurp(orig, base, id, env, order[1..], cur[key := fileKey][key + "_PATH" := path], kv[fileKey := blob])
  }

  /** Slurping fails exactly when some file parameter names a missing file. */
  lemma {:induction false} SlurpFails(orig: map<string, string>, base: string, id: int, env: Externals,
                                      order: seq<string>, cur: map<string, string>, kv: map<string, string>)
    requires forall k :: 0 <= k < |order| ==> order[k] in orig
    ensures Slurp(orig, base, id, env, order, cur, kv).error.Some? <==>
      exists k :: 0 <= k < |order| && CalculationProxy.IsFileKey(order[k]) && Join(base, orig[order[k]]) !in env.files
    decreases |order|
  {
    if order != [] {
      var rest := order[1..];
      var key := order[0];
      assert forall k :: 0 <= k < |rest| ==> rest[k] == order[k + 1];
      if !CalculationProxy.IsFileKey(key) {
        SlurpFails(orig, base, id, env, rest, cur, kv);
      } else {
        var path := Join(base, orig[key]);
        if path in env.files {
          var blob := env.files[path];
          var fileKey := env.blobKey(id, blob);
          SlurpFails(orig, base, id, env, rest, cur[key := fileKey][key + "_PATH" := path], kv[fileKey := blob]);
        }
      }
      if exists k :: 0 <= k < |order| && CalculationProxy.IsFileKey(order[k]) && Join(base, orig[order[k]]) !in env.files {
        var k :| 0 <= k < |order| && CalculationProxy.IsFileKey(order[k]) && Join(base, orig[order[k]]) !in env.files;
        if k > 0 {
          assert CalculationProxy.IsFileKey(rest[k - 1]) && Join(base, orig[rest[k - 1]]) !in env.files;
        }
      }
    }
  }

  /** A missing file stops slurping where it is met: the parameters and
      store are those the earlier parameters left, and the error names the
      missing path. */
  lemma {:induction false} SlurpStopsAtMissing(orig: map<string, string>, base: string, id: int, env: Externals,
                                               order: seq<string>, cur: map<string, string>, kv: map<string, string>,
                                               k: nat)
    requires forall i :: 0 <= i < |order| ==> order[i] in orig
    requires k < |order| && CalculationProxy.IsFileKey(order[k]) && Join(base, orig[order[k]]) !in env.files
    requires forall i :: 0 <= i < k && CalculationProxy.IsFileKey(order[i]) ==> Join(base, orig[order[i]]) in env.files
    ensures var before := Slurp(orig, base, id, env, order[..k], cur, kv);
      var all := Slurp(orig, base, id, env, order, cur, kv);
      before.error.None? &&
      all == Slurped(before.params, before.store, Some(FileMissing(Join(base, orig[order[k]]))))
    decreases k
  {
    if k > 0 {
      var rest := order[1..];
      assert forall i :: 0 <= i < |rest| ==> rest[i] == order[i + 1];
      assert order[..k][1..] == rest[..k - 1];
      var key := order[0];
      if !CalculationProxy.IsFileKey(key) {
        SlurpStopsAtMissing(orig, base, id, env, rest, cur, kv, k - 1);
      } else {
        var path := Join(base, orig[key]);
        var blob := env.files[path];
        var fileKey := env.blobKey(id, blob);
        SlurpStopsAtMissing(orig, base, id, env, rest, cur[key := fileKey][key + "_PATH" := path], kv[fileKey := blob], k - 1);
      }
    }
  }

  /** Keys the remaining steps never write keep their values. */
  lemma {:induction false} SlurpUntouched(orig: map<string, string>, base: string, id: int, env: Externals,
                                          order: seq<string>, cur: map<string, string>, kv: map<string, string>,
                                          key: string)
    requires forall k :: 0 <= k < |order| ==> order[k] in orig
    requires forall k :: 0 <= k < |order| && CalculationProxy.IsFileKey(order[k]) ==>
      order[k] != key && order[k] + "_PATH" != key
    requires Slurp(orig, base, id, env, order, cur, kv).error.None?
    ensures var out := Slurp(orig, base, id, env, order, cur, kv).params;
      (key in out <==> key in cur) && (key in cur ==> out[key] == cur[key])
    decreases |order|
  {
    if order != [] {
      var rest := order[1..];
      var k0 := order[0];
      assert forall k :: 0 <= k < |rest| ==> rest[k] == order[k + 1];
      if !CalculationProxy.IsFileKey(k0) {
        SlurpUntouched(orig, base, id, env, rest, cur, kv, key);
      } else {
        var path := Join(base, orig[k0]);
        var blob := env.files[path];
        var fileKey := env.blobKey(id, blob);
        SlurpUntouched(orig, base, id, env, rest, cur[k0 := fileKey][k0 + "_PATH" := path], kv[fileKey := blob], key);
      }
    }
  }

  /** A key ending in _PATH is never a file key. */
  lemma PathKeyNotFileKey(k: string)
    ensures !CalculationProxy.IsFileKey(k + "_PATH")
  {
    var s := k + "_PATH";
    assert s[|s| - 1] == 'H';
  }

  /** After slurping, a file parameter holds the blob key of its file's
      contents and its _PATH companion holds the file's path. */
  lemma {:induction false} SlurpedFile(orig: map<string, string>, base: string, id: int, env: Externals,
                                       order: seq<string>, cur: map<string, string>, kv: map<string, string>,
                                       key: string)
    requires forall k :: 0 <= k < |order| ==> order[k] in orig
    requires NoDup(order) && key in order && CalculationProxy.IsFileKey(key)
    requires Slurp(orig, base, id, env, order, cur, kv).error.None?
    ensures var path := Join(base, orig[key]);
      var out := Slurp(orig, base, id, env, order, cur, kv).params;
      path in env.files &&
      key in out && out[key] == env.blobKey(id, env.files[path]) &&
      key + "_PATH" in out && out[key + "_PATH"] == path
    decreases |order|
  {
    var rest := order[1..];
    assert forall k :: 0 <= k < |rest| ==> rest[k] == order[k + 1];
    var k0 := order[0];
    if k0 == key {
      var path := Join(base, orig[key]);
      var blob := env.files[path];
      var fileKey := env.blobKey(id, blob);
      var next := cur[key := fileKey][key + "_PATH" := path];
      PathKeyNotFileKey(key);
      forall k | 0 <= k < |rest| && CalculationProxy.IsFileKey(rest[k])
        ensures rest[k] != key && rest[k] + "_PATH" != key && rest[k] + "_PATH" != key + "_PATH"
      {
        assert rest[k] != key;
        PathKeyNotFileKey(rest[k]);
      }
      SlurpUntouched(orig, base, id, env, rest, next, kv[fileKey := blob], key);
      SlurpUntouched(orig, base, id, env, rest, next, kv[fileKey := blob], key + "_PATH");
    } else {
      assert key in rest;
      if !CalculationProxy.IsFileKey(k0) {
        SlurpedFile(orig, base, id, env, rest, cur, kv, key);
      } else {
        var path := Join(base, orig[k0]);
        var blob := env.files[path];
        var fileKey := env.blobKey(id, blob);
        SlurpedFile(orig, base, id, env, rest, cur[k0 := fileKey][k0 + "_PATH" := path], kv[fileKey := blob], key);
      }
    }
  }

  /** Parameters that are neither file parameters nor _PATH companions keep
      their values. */
  lemma SlurpKeepsOthers(orig: map<string, string>, base: string, id: int, env: Externals,
                         order: seq<string>, key: string)
    requires forall k :: 0 <= k < |order| ==> order[k] in orig
    requires key in orig && !CalculationProxy.IsFileKey(key) && !EndsWith(key, "_PATH")
    requires Slurp(orig, base, id, env, order, orig, map[]).error.None?
    ensures var out := Slurp(orig, base, id, env, order, orig, map[]).params;
      key in out && out[key] == orig[key]
  {
    forall k | 0 <= k < |order| && CalculationProxy.IsFileKey(order[k])
      ensures order[k] != key && order[k] + "_PATH" != key
    {
      var s := order[k] + "_PATH";
      assert s[|s| - 5..] == "_PATH";
    }
    SlurpUntouched(orig, base, id, env, order, orig, map[], key);
  }

  /** With a blob key that identifies contents (a content hash), the store
      holds each slurped file's contents under the key the parameter now
      holds. */
  lemma {:induction false} SlurpStoresBlob(orig: map<string, string>, base: string, id: int, env: Externals,
                                           order: seq<string>, cur: map<string, string>, kv: map<string, string>,
                                           key: string)
    requires forall k :: 0 <= k < |order| ==> order[k] in orig
    requires forall b1, b2 :: env.blobKey(id, b1) == env.blobKey(id, b2) ==> b1 == b2
    requires key in order && CalculationProxy.IsFileKey(key)
    requires Slurp(orig, base, id, env, order, cur, kv).error.None?
    ensures var path := Join(base, orig[key]);
      var store := Slurp(orig, base, id, env, order, cur, kv).store;
      path in env.files && env.blobKey(id, env.files[path]) in store &&
      store[env.blobKey(id, env.files[path])] == env.files[path]
    decreases |order|
  {
    var rest := order[1..];
    assert forall k :: 0 <= k < |rest| ==> rest[k] == order[k + 1];
    var k0 := order[0];
    if !CalculationProxy.IsFileKey(k0) {
      SlurpStoresBlob(orig, base, id, env, rest, cur, kv, key);
    } else {
      var path0 := Join(base, orig[k0]);
      var blob0 := env.files[path0];
      var fileKey0 := env.blobKey(id, blob0);
      var cur' := cur[k0 := fileKey0][k0 + "_PATH" := path0];
      var kv' := kv[fileKey0 := blob0];
      if key in rest {
        SlurpStoresBlob(orig, base, id, env, rest, cur', kv', key);
      } else {
        assert k0 == key;
        SlurpKeepsBlob(orig, base, id, env, rest, cur', kv', fileKey0);
      }
    }
  }

  /** A store entry written for some contents stays: later writes under the
      same key write the same contents. */
  lemma {:induction false} SlurpKeepsBlob(orig: map<string, string>, base: string, id: int, env: Externals,
                                          order: seq<string>, cur: map<string, string>, kv: map<string, string>,
                                          fileKey: string)
    requires forall k :: 0 <= k < |order| ==> order[k] in orig
    requires forall b1, b2 :: env.blobKey(id, b1) == env.blobKey(id, b2) ==> b1 == b2
    requires fileKey in kv && fileKey == env.blobKey(id, kv[fileKey])
    requires Slurp(orig, base, id, env, order, cur, kv).error.None?
    ensures var store := Slurp(orig, base, id, env, order, cur, kv).store;
      fileKey in store && store[fileKey] == kv[fileKey]
    decreases |order|
  {
    if order != [] {
      var rest := order[1..];
      assert forall k :: 0 <= k < |rest| ==> rest[k] == order[k + 1];
      var k0 := order[0];
      if !CalculationProxy.IsFileKey(k0) {
        SlurpKeepsBlob(orig, base, id, env, rest, cur, kv, fileKey);
      } else {
        var path0 := Join(base, orig[k0]);
        var blob0 := env.files[path0];
        var fileKey0 := env.blobKey(id, blob0);
        SlurpKeepsBlob(orig, base, id, env, rest, cur[k0 := fileKey0][k0 + "_PATH" := path0], kv[fileKey0 := blob0], fileKey);
      }
    }
  }

  // ------------------------------------------------------------ properties

  /** Without any base path, an absolute EXPOSURE is still read: the listing
      never fails for the missing base path, and the file read is EXPOSURE
      itself. */
  lemma AbsoluteExposureWithoutBase(p: CalculationProxy, cat: Catalog, env: Externals)
    requires ExposureKey in p.params && IsAbs(p.params[ExposureKey]) && p.BasePath().None?
    ensures p.ExposureListing(cat, env) != Failure(NoBasePath)
    ensures p.ExposurePath() == p.params[ExposureKey]
    ensures p.Region(cat, env.parseFloat).Success? ==>
      var listed := env.exposureSites(p.params[ExposureKey], p.Region(cat, env.parseFloat).value);
      listed.Some? ==> p.ExposureListing(cat, env) == Success(listed.value)
  {
  }

  /** Equal proxies (same parameters) answer every parameter query alike. */
  lemma EqualProxiesAgree(a: CalculationProxy, b: CalculationProxy, cat: Catalog, name: string)
    requires a.Equals(b)
    ensures a.Has(name) == b.Has(name)
    ensures a.GetItem(cat, name) == b.GetItem(cat, name)
    ensures a.Imls(cat) == b.Imls(cat)
    ensures a.ExtractCoords(cat, name) == b.ExtractCoords(cat, name)
    ensures forall parseFloat :: a.Region(cat, parseFloat) == b.Region(cat, parseFloat)
  {
  }

  /** Precedence of the site-selection policies: exposure sites win over an
      explicit site list, which wins over the region grid. */
  lemma SelectionPrecedence(p: CalculationProxy, cat: Catalog, env: Externals)
    ensures RiskSection in p.sections && p.Has(ExposureFlag) ==>
      p.SelectedSites(cat, env) == (match p.ExposureListing(cat, env)
                                    case Failure(e) => Failure(e)
                                    case Success(listed) => Success(Dedup(listed)))
    ensures !(RiskSection in p.sections && p.Has(ExposureFlag)) && p.Has(SitesKey) ==>
      p.SelectedSites(cat, env) == (match p.ExtractCoords(cat, SitesKey)
                                    case Failure(e) => Failure(e)
                                    case Success(coords) => Success(SitesOf(coords)))
    ensures !(RiskSection in p.sections && p.Has(ExposureFlag)) && !p.Has(SitesKey) ==>
      p.SelectedSites(cat, env) == (match p.ExtractCoords(cat, RegionVertexKey)
                                    case Failure(e) => Failure(e)
                                    case Success(coords) => Success(env.gridSites(coords, p.GetItem(cat, GridSpacingKey))))
  {
  }

  /** Exposure-derived sites have no repetitions and keep the order in which
      each site is first listed. */
  lemma ExposureSitesDistinct(p: CalculationProxy, cat: Catalog, env: Externals)
    requires RiskSection in p.sections && p.Has(ExposureFlag)
    requires p.SelectedSites(cat, env).Success?
    ensures var listed := p.ExposureListing(cat, env).value;
      var s := p.SelectedSites(cat, env).value;
      NoDup(s) && (forall i :: 0 <= i < |s| ==> s[i] in listed) &&
      (forall i :: 0 <= i < |listed| ==> listed[i] in s) &&
      (forall i, j :: 0 <= i < j < |s| ==> IndexOf(listed, s[i]) < IndexOf(listed, s[j]))
  {
    DedupKeepsFirstOccurrenceOrder(p.ExposureListing(cat, env).value);
  }

  /** Explicit sites: one per lat, lon pair of the SITES list, longitude
      first. */
  lemma ExplicitSites(p: CalculationProxy, cat: Catalog, env: Externals)
    requires !(RiskSection in p.sections && p.Has(ExposureFlag)) && p.Has(SitesKey)
    requires p.GetItem(cat, SitesKey).VRealList?
    ensures var xs := p.GetItem(cat, SitesKey).xs;
      var s := p.SelectedSites(cat, env);
      s.Success? && |s.value| == |xs| / 2 &&
      forall i :: 0 <= i < |xs| / 2 ==> s.value[i] == Site(xs[2 * i + 1], xs[2 * i])
  {
    CoordsSwapPairs(p.GetItem(cat, SitesKey).xs);
  }

  /** is_job_completed: the calculation's recorded status is terminal. */
  function IsJobCompleted(statuses: map<int, string>, id: int): (r: Result<bool, ProxyError>)
    ensures r.Failure? <==> id !in statuses
    ensures r.Success? ==> (r.value <==> statuses[id] in {"succeeded", "failed"})
  {
    if id !in statuses then Failure(NoSuchCalculation(id))
    else Success(statuses[id] == "succeeded" || statuses[id] == "failed")
  }
}
