/** The bookkeeping of the event-based risk calculator
    (openquake/calculators/risk/event_based/core.py): the "row!col" keys of
    grid points, the per-site collation of ground-motion fields read from the
    database or the key-value store, the hand-over of those slices to the
    key-value store, the guards of the per-asset loss computations, and the
    aggregate-curve plot's file name and skip branch. The grid lookup, the
    fields themselves and the loss numerics are parameters. */
module EventBased {
  import opened Results
  import opened Seqs
  import opened Strings
  import opened Paths
  import opened Writes
  import CalcProxy
  import opened ParamCatalog

  type Site = CalcProxy.Site

  /** A cell of the region's grid (Grid.point_at). */
  datatype GridPoint = GridPoint(row: int, column: int)

  /** A ground-motion field, read as field.get(row, col). */
  type Field = (int, int) -> real

  // ------------------------------------------------------------ file name

  const AggregateCurveSuffix: string := "-aggregate-loss-curve.svg"

  /** _filename */
  function Filename(jobId: int): (r: string)
    ensures EndsWith(r, ".svg")
    ensures '/' !in r && !IsAbs(r)
    ensures StartsWith(r, IntToString(jobId))
  {
    NoCharInIntToString(jobId, '/');
    IntToStringShape(jobId);
    IntToString(jobId) + AggregateCurveSuffix
  }

  /** Different calculations never share a plot file. */
  lemma FilenameInjective(a: int, b: int)
    requires Filename(a) == Filename(b)
    ensures a == b
  {
    var n := |AggregateCurveSuffix|;
    assert Filename(a)[..|Filename(a)| - n] == IntToString(a);
    assert Filename(b)[..|Filename(b)| - n] == IntToString(b);
    ParseIntToString(a);
    ParseIntToString(b);
  }

  // ------------------------------------------------------------ GMF keys

  const KeySep: char := '!'

  /** "%s!%s" % (point.row, point.column): the separator occurs once, right
      after the row's text. */
  function GmfKey(p: GridPoint): (k: string)
    ensures var n := |IntToString(p.row)|;
      n < |k| && k[n] == KeySep && forall i :: 0 <= i < |k| && i != n ==> k[i] != KeySep
  {
    NoCharInIntToString(p.row, KeySep);
    NoCharInIntToString(p.column, KeySep);
    IntToString(p.row) + [KeySep] + IntToString(p.column)
  }

  /** The ValueErrors of unpacking key.split("!") into two names and of
      int() on either piece. */
  datatype KeyError = WrongPieceCount(count: nat) | NotAnInt(text: string)

  /** (row, col) = key.split("!"); int(row), int(col): a key decodes exactly
      when it splits into two pieces that are both integers, and the point is
      their values. */
  function DecodeKey(key: string): (r: Result<GridPoint, KeyError>)
    ensures var parts := Split(key, KeySep);
      r.Success? <==> |parts| == 2 && ParseInt(parts[0]).Some? && ParseInt(parts[1]).Some?
    ensures var parts := Split(key, KeySep);
      r.Success? ==> r.value == GridPoint(ParseInt(parts[0]).value, ParseInt(parts[1]).value)
    ensures var parts := Split(key, KeySep);
      |parts| != 2 ==> r == Failure(WrongPieceCount(|parts|))
  {
    var parts := Split(key, KeySep);
    if |parts| != 2 then Failure(WrongPieceCount(|parts|))
    else if ParseInt(parts[0]).None? then Failure(NotAnInt(parts[0]))
    else if ParseInt(parts[1]).None? then Failure(NotAnInt(parts[1]))
    else Success(GridPoint(ParseInt(parts[0]).value, ParseInt(parts[1]).value))
  }

  /** The two pieces of a key are the texts of its row and of its column. */
  lemma KeyPieces(p: GridPoint)
    ensures Split(GmfKey(p), KeySep) == [IntToString(p.row), IntToString(p.column)]
  {
    var a, b := IntToString(p.row), IntToString(p.column);
    NoCharInIntToString(p.row, KeySep);
    NoCharInIntToString(p.column, KeySep);
    PiecesAt(a, KeySep, b, {KeySep});
    PiecesOfWord(a, {KeySep});
    PiecesOfWord(b, {KeySep});
  }

  /** Decoding a key recovers the grid point that produced it. */
  lemma DecodeGmfKey(p: GridPoint)
    ensures DecodeKey(GmfKey(p)) == Success(p)
  {
    KeyPieces(p);
    ParseIntToString(p.row);
    ParseIntToString(p.column);
  }

  /** A key without a '!' is one piece, which is not a grid point. */
  lemma DecodeKeyWithoutSeparator(key: string)
    requires forall j :: 0 <= j < |key| ==> key[j] != KeySep
    ensures DecodeKey(key) == Failure(WrongPieceCount(1))
  {
    PiecesOfWord(key, {KeySep});
  }

  /** A key whose row piece is not an integer is refused with that piece. */
  lemma DecodeKeyRowNotAnInt(row: string, column: string)
    requires forall j :: 0 <= j < |row| ==> row[j] != KeySep
    requires forall j :: 0 <= j < |column| ==> column[j] != KeySep
    requires ParseInt(row).None?
    ensures DecodeKey(row + [KeySep] + column) == Failure(NotAnInt(row))
  {
    PiecesAt(row, KeySep, column, {KeySep});
    PiecesOfWord(row, {KeySep});
    PiecesOfWord(column, {KeySep});
  }

  /** Distinct grid points have distinct keys. */
  lemma GmfKeyInjective(p: GridPoint, q: GridPoint)
    requires GmfKey(p) == GmfKey(q)
    ensures p == q
  {
    DecodeGmfKey(p);
    DecodeGmfKey(q);
  }

  /** _sites_to_gmf_keys: one key per site, in site order. */
  method SitesToGmfKeys(sites: seq<Site>, pointAt: Site -> GridPoint) returns (keys: seq<string>)
    ensures |keys| == |sites|
    ensures forall i :: 0 <= i < |sites| ==> keys[i] == GmfKey(pointAt(sites[i]))
  {
    keys := KeysOfSites(sites, pointAt, GmfKey);
  }

  /** The loop of _sites_to_gmf_keys, for a key function key: the key of
      each site's grid point appended in site order. */
  method KeysOfSites<K>(sites: seq<Site>, pointAt: Site -> GridPoint, key: GridPoint -> K) returns (keys: seq<K>)
    ensures |keys| == |sites|
    ensures forall i :: 0 <= i < |sites| ==> keys[i] == key(pointAt(sites[i]))
  {
    keys := [];
    var i := 0;
    while i < |sites|
      invariant 0 <= i <= |sites| && |keys| == i
      invariant forall j :: 0 <= j < i ==> keys[j] == key(pointAt(sites[j]))
    {
      var riskPoint := pointAt(sites[i]);
      keys := keys + [key(riskPoint)];
      i := i + 1;
    }
  }

  // ------------------------------------------------------------ collation

  /** The value of each field at the point, in field order. */
  function Samples(fields: seq<Field>, p: GridPoint): (r: seq<real>)
    ensures |r| == |fields|
    ensures forall i :: 0 <= i < |fields| ==> r[i] == fields[i](p.row, p.column)
    decreases |fields|
  {
    if fields == [] then [] else Samples(fields[..|fields| - 1], p) + [fields[|fields| - 1](p.row, p.column)]
  }

  /** A key function that tells grid points apart. */
  ghost predicate Injective<K>(key: GridPoint -> K) {
    forall p, q :: key(p) == key(q) ==> p == q
  }

  lemma GmfKeyIsInjective()
    ensures Injective(GmfKey)
  {
    forall p, q | GmfKey(p) == GmfKey(q) ensures p == q {
      GmfKeyInjective(p, q);
    }
  }

  /** The collation both loops are meant to build, under a key function that
      tells points apart: each point's key mapped to the value of every field
      at that point, in field order, and nothing else. */
  function ByKey<K>(points: seq<GridPoint>, key: GridPoint -> K, fields: seq<Field>): map<K, seq<real>>
    requires Injective(key)
  {
    map i | 0 <= i < |points| :: key(points[i]) := Samples(fields, points[i])
  }

  lemma ByKeyAt<K>(points: seq<GridPoint>, key: GridPoint -> K, fields: seq<Field>)
    requires Injective(key)
    ensures var g := ByKey(points, key, fields);
      (forall i :: 0 <= i < |points| ==> key(points[i]) in g && g[key(points[i])] == Samples(fields, points[i])) &&
      (forall k :: k in g ==> exists i :: 0 <= i < |points| && k == key(points[i]))
  {
  }

  /** A map from the points' keys holding each point's values is the
      reference collation. */
  lemma IsByKey<K>(points: seq<GridPoint>, key: GridPoint -> K, keys: seq<K>, fields: seq<Field>,
                   gmfs: map<K, seq<real>>)
    requires Injective(key)
    requires |keys| == |points|
    requires forall i :: 0 <= i < |points| ==> keys[i] == key(points[i])
    requires gmfs.Keys == set k | k in keys
    requires forall i :: 0 <= i < |points| ==> gmfs[keys[i]] == Samples(fields, points[i])
    ensures gmfs == ByKey(points, key, fields)
  {
    var r := ByKey(points, key, fields);
    ByKeyAt(points, key, fields);
    forall k | k in gmfs ensures k in r && gmfs[k] == r[k] {
      var i :| 0 <= i < |keys| && keys[i] == k;
    }
    forall k | k in r ensures k in gmfs {
      var i :| 0 <= i < |points| && k == key(points[i]);
      assert keys[i] == k;
    }
  }

  /** The grid point of each site, in site order. */
  function PointsAt(sites: seq<Site>, pointAt: Site -> GridPoint): (points: seq<GridPoint>)
    ensures |points| == |sites|
    ensures forall i :: 0 <= i < |sites| ==> points[i] == pointAt(sites[i])
  {
    seq(|sites|, i requires 0 <= i < |sites| => pointAt(sites[i]))
  }

  /** What both collations build for a block: every site's "row!col" key
      mapped to the value of each field at that site's grid point. */
  function SiteGmfs(sites: seq<Site>, pointAt: Site -> GridPoint, fields: seq<Field>): map<string, seq<real>> {
    GmfKeyIsInjective();
    ByKey(PointsAt(sites, pointAt), GmfKey, fields)
  }

  /** Each site's entry holds that site's values; every entry belongs to a
      site, so no sites give an empty dictionary. */
  lemma SiteGmfsAtSites(sites: seq<Site>, pointAt: Site -> GridPoint, fields: seq<Field>)
    ensures var g := SiteGmfs(sites, pointAt, fields);
      (forall i :: 0 <= i < |sites| ==>
        GmfKey(pointAt(sites[i])) in g && g[GmfKey(pointAt(sites[i]))] == Samples(fields, pointAt(sites[i]))) &&
      (forall k :: k in g ==> exists i :: 0 <= i < |sites| && k == GmfKey(pointAt(sites[i])))
  {
    GmfKeyIsInjective();
    ByKeyAt(PointsAt(sites, pointAt), GmfKey, fields);
  }

  /** A key that key.split("!") unpacks into a row and a column. */
  predicate TwoPieces(key: string) {
    |Split(key, KeySep)| == 2
  }

  /** Every key of the reference collation unpacks into two pieces. */
  lemma OrderKeysSplit(sites: seq<Site>, pointAt: Site -> GridPoint, fields: seq<Field>, order: seq<string>)
    requires IsOrderOf(order, SiteGmfs(sites, pointAt, fields))
    ensures forall t :: 0 <= t < |order| ==> TwoPieces(order[t])
  {
    SiteGmfsAtSites(sites, pointAt, fields);
    forall t | 0 <= t < |order| ensures TwoPieces(order[t]) {
      var i :| 0 <= i < |sites| && order[t] == GmfKey(pointAt(sites[i]));
      KeyPieces(pointAt(sites[i]));
    }
  }

  /** How the collation loops read a key back as a grid point: for the
      "row!col" keys this is DecodeKey, key.split("!") and int() of each
      piece. */
  type Decoder<!K> = K -> Result<GridPoint, KeyError>

  predicate Decodable<K>(keys: set<K>, decode: Decoder<K>) {
    forall k :: k in keys ==> decode(k).Success?
  }

  /** The lists a collation loop holds once the given fields are in: each key's
      list holds the value of every field at the point the key decodes to. */
  function Gather<K>(keys: set<K>, decode: Decoder<K>, fields: seq<Field>): (r: map<K, seq<real>>)
    requires Decodable(keys, decode)
    ensures r.Keys == keys
  {
    map k | k in keys :: Samples(fields, decode(k).value)
  }

  /** The inner loop over gmfs.keys(): every list gets the field's value at
      the point its key decodes to. */
  method AppendField<K>(gmfs: map<K, seq<real>>, field: Field, decode: Decoder<K>) returns (r: map<K, seq<real>>)
    requires Decodable(gmfs.Keys, decode)
    ensures r.Keys == gmfs.Keys
    ensures forall k :: k in gmfs ==>
      r[k] == gmfs[k] + [field(decode(k).value.row, decode(k).value.column)]
  {
    r := gmfs;
    var todo := gmfs.Keys;
    while todo != {}
      invariant todo <= gmfs.Keys && r.Keys == gmfs.Keys
      invariant forall k :: k in todo ==> r[k] == gmfs[k]
      invariant forall k :: k in gmfs.Keys - todo ==>
        r[k] == gmfs[k] + [field(decode(k).value.row, decode(k).value.column)]
      decreases |todo|
    {
      var key :| key in todo;
      var point := decode(key).value;
      r := r[key := r[key] + [field(point.row, point.column)]];
      todo := todo - {key};
    }
  }

  /** One more field appended to every list of a gathered map gathers one
      more field. */
  lemma GatherStep<K>(keys: set<K>, decode: Decoder<K>, fields: seq<Field>, field: Field, m: map<K, seq<real>>)
    requires Decodable(keys, decode)
    requires m.Keys == keys
    requires forall k :: k in keys ==>
      m[k] == Gather(keys, decode, fields)[k] + [field(decode(k).value.row, decode(k).value.column)]
    ensures m == Gather(keys, decode, fields + [field])
  {
    forall k | k in keys ensures m[k] == Gather(keys, decode, fields + [field])[k] {
      var p := decode(k).value;
      assert Samples(fields + [field], p) == Samples(fields, p) + [field(p.row, p.column)] by {
        assert (fields + [field])[..|fields|] == fields;
      }
    }
  }

  /** The keys of grid points decode to those points. */
  lemma PointKeysDecode(points: seq<GridPoint>, keys: seq<string>)
    requires |keys| == |points|
    requires forall i :: 0 <= i < |points| ==> keys[i] == GmfKey(points[i])
    ensures forall i :: 0 <= i < |points| ==> DecodeKey(keys[i]) == Success(points[i])
  {
    forall i | 0 <= i < |points| ensures DecodeKey(keys[i]) == Success(points[i]) {
      DecodeGmfKey(points[i]);
    }
  }

  /** Gathering at keys that decode to given points holds, under each key,
      the values of the fields at its point. */
  lemma GatherAt<K>(keys: seq<K>, points: seq<GridPoint>, decode: Decoder<K>, fields: seq<Field>)
    requires |keys| == |points|
    requires forall i :: 0 <= i < |keys| ==> decode(keys[i]) == Success(points[i])
    ensures Decodable((set k | k in keys), decode)
    ensures Decodable((set k | k in keys), decode) ==>
      forall i :: 0 <= i < |keys| ==> Gather((set k | k in keys), decode, fields)[keys[i]] == Samples(fields, points[i])
  {
    forall k | k in (set k | k in keys) ensures decode(k).Success? {
      var i :| 0 <= i < |keys| && keys[i] == k;
    }
  }

  /** The pre-seeded dictionary, an empty list per key, has gathered no
      field yet. */
  lemma SeedIsEmptyGather<K>(keys: seq<K>, decode: Decoder<K>)
    requires Decodable((set k | k in keys), decode)
    ensures (map k | k in keys :: []) == Gather((set k | k in keys), decode, [])
  {
  }

  /** The lists of _get_db_gmfs: seeded empty for each key, then one value
      appended to each per field, field by field. */
  method CollateFields<K>(keys: seq<K>, fields: seq<Field>, decode: Decoder<K>) returns (gmfs: map<K, seq<real>>)
    requires Decodable((set k | k in keys), decode)
    ensures gmfs == Gather((set k | k in keys), decode, fields)
  {
    ghost var keySet := set k | k in keys;
    gmfs := map k | k in keys :: [];
    SeedIsEmptyGather(keys, decode);
    gmfs := AppendFieldSet(gmfs, fields, decode, keySet, []);
    assert [] + fields == fields;
  }

  /** _get_db_gmfs, given the GMF outputs' fields in output order: for
      every site, one value per output, in output order. */
  method GetDbGmfs(sites: seq<Site>, pointAt: Site -> GridPoint, fields: seq<Field>)
    returns (gmfs: map<string, seq<real>>)
    ensures gmfs == SiteGmfs(sites, pointAt, fields)
  {
    var gmfKeys := SitesToGmfKeys(sites, pointAt);
    ghost var points := PointsAt(sites, pointAt);
    PointKeysDecode(points, gmfKeys);
    GatherAt(gmfKeys, points, DecodeKey, fields);
    gmfs := CollateFields(gmfKeys, fields, DecodeKey);
    GmfKeyIsInjective();
    IsByKey(points, GmfKey, gmfKeys, fields, gmfs);
  }

  /** The fields of history i's realizations 0 .. count - 1, in order. */
  function HistoryFields(fieldsets: (int, int) -> seq<Field>, i: int, count: int): seq<Field>
    decreases count
  {
    if count <= 0 then [] else HistoryFields(fieldsets, i, count - 1) + fieldsets(i, count - 1)
  }

  /** The fields of every (history, realization) field set, history-major. */
  function KvsFields(fieldsets: (int, int) -> seq<Field>, histories: int, realizations: int): seq<Field>
    decreases histories
  {
    if histories <= 0 then []
    else KvsFields(fieldsets, histories - 1, realizations) + HistoryFields(fieldsets, histories - 1, realizations)
  }

  /** The loop over one field set: one value appended to each list per
      field, field by field. */
  method AppendFieldSet<K>(gmfs: map<K, seq<real>>, fieldset: seq<Field>, decode: Decoder<K>,
                           ghost keys: set<K>, ghost before: seq<Field>)
    returns (r: map<K, seq<real>>)
    requires Decodable(keys, decode) && gmfs == Gather(keys, decode, before)
    ensures r == Gather(keys, decode, before + fieldset)
  {
    r := gmfs;
    var f := 0;
    assert before + [] == before;
    while f < |fieldset|
      invariant 0 <= f <= |fieldset|
      invariant r == Gather(keys, decode, before + fieldset[..f])
    {
      var next := AppendField(r, fieldset[f], decode);
      GatherStep(keys, decode, before + fieldset[..f], fieldset[f], next);
      r := next;
      assert before + fieldset[..f] + [fieldset[f]] == before + fieldset[..f + 1];
      f := f + 1;
    }
    assert fieldset[..f] == fieldset;
  }

  /** The loop over one history's realizations, in realization order. */
  method AppendHistory<K>(gmfs: map<K, seq<real>>, fieldsets: (int, int) -> seq<Field>, i: int, realizations: int,
                          decode: Decoder<K>, ghost keys: set<K>, ghost before: seq<Field>)
    returns (r: map<K, seq<real>>)
    requires Decodable(keys, decode) && gmfs == Gather(keys, decode, before)
    ensures r == Gather(keys, decode, before + HistoryFields(fieldsets, i, realizations))
  {
    r := gmfs;
    var j := 0;
    ghost var done := before;
    assert before + [] == before;
    while j < realizations
      invariant j <= realizations || j == 0
      invariant done == before + HistoryFields(fieldsets, i, j)
      invariant r == Gather(keys, decode, done)
    {
      var fieldset := fieldsets(i, j);
      r := AppendFieldSet(r, fieldset, decode, keys, done);
      assert HistoryFields(fieldsets, i, j + 1) == HistoryFields(fieldsets, i, j) + fieldset;
      done := done + fieldset;
      j := j + 1;
    }
  }

  /** The lists of _get_kvs_gmfs: seeded empty for each key, then for each
      history and each realization, one value appended to each per field of
      that pair's field set. */
  method CollateFieldSets<K>(keys: seq<K>, fieldsets: (int, int) -> seq<Field>, histories: int, realizations: int,
                             decode: Decoder<K>)
    returns (gmfs: map<K, seq<real>>)
    requires Decodable((set k | k in keys), decode)
    ensures gmfs == Gather((set k | k in keys), decode, KvsFields(fieldsets, histories, realizations))
  {
    ghost var keySet := set k | k in keys;
    gmfs := map k | k in keys :: [];
    SeedIsEmptyGather(keys, decode);
    var i := 0;
    while i < histories
      invariant i <= histories || i == 0
      invariant gmfs == Gather(keySet, decode, KvsFields(fieldsets, i, realizations))
    {
      gmfs := AppendHistory(gmfs, fieldsets, i, realizations, decode, keySet, KvsFields(fieldsets, i, realizations));
      i := i + 1;
    }
    assert KvsFields(fieldsets, i, realizations) == KvsFields(fieldsets, histories, realizations);
  }

  /** _get_kvs_gmfs, given the field set stored for each (history,
      realization) pair: for every site, one value per field of every field
      set, history-major. */
  method GetKvsGmfs(sites: seq<Site>, pointAt: Site -> GridPoint, fieldsets: (int, int) -> seq<Field>,
                    histories: int, realizations: int)
    returns (gmfs: map<string, seq<real>>)
    ensures gmfs == SiteGmfs(sites, pointAt, KvsFields(fieldsets, histories, realizations))
  {
    var gmfKeys := SitesToGmfKeys(sites, pointAt);
    ghost var points := PointsAt(sites, pointAt);
    ghost var all := KvsFields(fieldsets, histories, realizations);
    PointKeysDecode(points, gmfKeys);
    GatherAt(gmfKeys, points, DecodeKey, all);
    gmfs := CollateFieldSets(gmfKeys, fieldsets, histories, realizations, DecodeKey);
    GmfKeyIsInjective();
    IsByKey(points, GmfKey, gmfKeys, all, gmfs);
  }

  /** Where the field set of history i, realization j lies: after every
      field of the earlier histories and of history i's earlier
      realizations. */
  function FieldSetOffset(fieldsets: (int, int) -> seq<Field>, i: int, j: int, realizations: int): nat {
    |KvsFields(fieldsets, i, realizations)| + |HistoryFields(fieldsets, i, j)|
  }

  /** The history-major layout: the fields of (history i, realization j)
      appear contiguously at FieldSetOffset. */
  lemma {:induction false} KvsFieldsAt(fieldsets: (int, int) -> seq<Field>, histories: nat, realizations: nat,
                                       i: nat, j: nat)
    requires i < histories && j < realizations
    ensures var off, all := FieldSetOffset(fieldsets, i, j, realizations), KvsFields(fieldsets, histories, realizations);
      off + |fieldsets(i, j)| <= |all| && all[off..off + |fieldsets(i, j)|] == fieldsets(i, j)
    decreases histories
  {
    var fs := fieldsets(i, j);
    var off := FieldSetOffset(fieldsets, i, j, realizations);
    var done := KvsFields(fieldsets, histories - 1, realizations);
    var last := HistoryFields(fieldsets, histories - 1, realizations);
    assert KvsFields(fieldsets, histories, realizations) == done + last;
    if i == histories - 1 {
      var offInHistory := |HistoryFields(fieldsets, i, j)|;
      HistoryFieldsAt(fieldsets, i, j, realizations);
      SliceOfRight(done, last, offInHistory, offInHistory + |fs|);
    } else {
      KvsFieldsAt(fieldsets, histories - 1, realizations, i, j);
      SliceOfLeft(done, last, off, off + |fs|);
    }
  }

  /** Within a history, realization j's fields follow those of the earlier
      realizations. */
  lemma {:induction false} HistoryFieldsAt(fieldsets: (int, int) -> seq<Field>, i: nat, j: nat, count: nat)
    requires j < count
    ensures var off, history := |HistoryFields(fieldsets, i, j)|, HistoryFields(fieldsets, i, count);
      off + |fieldsets(i, j)| <= |history| && history[off..off + |fieldsets(i, j)|] == fieldsets(i, j)
    decreases count
  {
    var off := |HistoryFields(fieldsets, i, j)|;
    var fs := fieldsets(i, j);
    var shorter := HistoryFields(fieldsets, i, count - 1);
    assert HistoryFields(fieldsets, i, count) == shorter + fieldsets(i, count - 1);
    if count == j + 1 {
      SliceOfAppended(shorter, fs);
    } else {
      HistoryFieldsAt(fieldsets, i, j, count - 1);
      SliceOfLeft(shorter, fieldsets(i, count - 1), off, off + |fs|);
    }
  }

  /** With n fields in every field set, history i's realization j starts at
      offset (i * realizations + j) * n. */
  lemma {:induction false} HistoryFieldsLength(fieldsets: (int, int) -> seq<Field>, i: int, count: nat, n: nat)
    requires forall j :: 0 <= j < count ==> |fieldsets(i, j)| == n
    ensures |HistoryFields(fieldsets, i, count)| == count * n
  {
    if count > 0 {
      HistoryFieldsLength(fieldsets, i, count - 1, n);
      assert (count - 1) * n + n == count * n;
    }
  }

  lemma {:induction false} KvsFieldsLength(fieldsets: (int, int) -> seq<Field>, histories: nat, realizations: nat, n: nat)
    requires forall i, j :: 0 <= i < histories && 0 <= j < realizations ==> |fieldsets(i, j)| == n
    ensures |KvsFields(fieldsets, histories, realizations)| == histories * (realizations * n)
  {
    if histories > 0 {
      KvsFieldsLength(fieldsets, histories - 1, realizations, n);
      HistoryFieldsLength(fieldsets, histories - 1, realizations, n);
      assert (histories - 1) * (realizations * n) + realizations * n == histories * (realizations * n);
    }
  }

  lemma UniformFieldSetOffset(fieldsets: (int, int) -> seq<Field>, histories: nat, realizations: nat, n: nat,
                              i: nat, j: nat)
    requires forall i, j :: 0 <= i < histories && 0 <= j < realizations ==> |fieldsets(i, j)| == n
    requires i < histories && j < realizations
    ensures FieldSetOffset(fieldsets, i, j, realizations) == (i * realizations + j) * n
  {
    KvsFieldsLength(fieldsets, i, realizations, n);
    HistoryFieldsLength(fieldsets, i, j, n);
    OffsetArithmetic(i, realizations, j, n);
  }

  lemma OffsetArithmetic(i: nat, realizations: nat, j: nat, n: nat)
    ensures i * (realizations * n) + j * n == (i * realizations + j) * n
  {
    assert (i * realizations + j) * n == (i * realizations) * n + j * n;
    assert (i * realizations) * n == i * (realizations * n);
  }

  // ------------------------------------------------------------ slice_gmfs

  /** The value slice_gmfs stores for a site. */
  datatype GmfSlice = GmfSlice(imls: seq<real>, tses: real, timeSpan: real)

  /** The key-value store's GMF-slice entries. */
  class GmfSliceStore {
    var data: map<string, GmfSlice>

    constructor ()
      ensures data == map[]
    {
      data := map[];
    }
  }

  /** kvs.tokens.gmf_set_key(job_id, column, row), applied to the "%s"
      texts of its arguments. */
  type SetKey = (int, string, string) -> string

  /** gmf_set_key can be read back: some parser recovers its arguments, so
      different arguments give different keys. */
  ghost predicate ReadsBack(setKey: SetKey, parse: string -> (int, string, string)) {
    forall j, c, r :: parse(setKey(j, c, r)) == (j, c, r)
  }

  /** The keys slice_gmfs unpacks: each is in gmfs and splits in two. */
  predicate Sliceable(gmfs: map<string, seq<real>>, order: seq<string>) {
    forall t :: 0 <= t < |order| ==> order[t] in gmfs && TwoPieces(order[t])
  }

  /** The store write for one key: its list under gmf_set_key of the key's
      second piece, then its first. */
  function SliceWrite(jobId: int, gmfs: map<string, seq<real>>, key: string, setKey: SetKey,
                      tses: real, timeSpan: real): (string, GmfSlice)
    requires key in gmfs && TwoPieces(key)
  {
    var parts := Split(key, KeySep);
    (setKey(jobId, parts[1], parts[0]), GmfSlice(gmfs[key], tses, timeSpan))
  }

  /** The store writes slice_gmfs performs, in gmfs.items() order. */
  function SliceWrites(jobId: int, gmfs: map<string, seq<real>>, order: seq<string>,
                       setKey: SetKey, tses: real, timeSpan: real): (w: seq<(string, GmfSlice)>)
    requires Sliceable(gmfs, order)
    ensures |w| == |order|
    decreases |order|
  {
    if order == [] then []
    else
      assert forall t :: 0 <= t < |order| - 1 ==> order[1..][t] == order[t + 1];
      [SliceWrite(jobId, gmfs, order[0], setKey, tses, timeSpan)] +
      SliceWrites(jobId, gmfs, order[1..], setKey, tses, timeSpan)
  }

  lemma {:induction false} SliceWritesAt(jobId: int, gmfs: map<string, seq<real>>, order: seq<string>,
                                         setKey: SetKey, tses: real, timeSpan: real, t: nat)
    requires Sliceable(gmfs, order) && t < |order|
    ensures SliceWrites(jobId, gmfs, order, setKey, tses, timeSpan)[t] ==
            SliceWrite(jobId, gmfs, order[t], setKey, tses, timeSpan)
    decreases t
  {
    if t > 0 {
      assert forall u :: 0 <= u < |order| - 1 ==> order[1..][u] == order[u + 1];
      SliceWritesAt(jobId, gmfs, order[1..], setKey, tses, timeSpan, t - 1);
    }
  }

  /** slice_gmfs: collate the block's sites from the database and store
      each site's slice under its GMF-set key; the TSES and time span are
      given (their arithmetic is not part of this model). */
  method SliceGmfs(store: GmfSliceStore, jobId: int, sites: seq<Site>, pointAt: Site -> GridPoint,
                   fields: seq<Field>, setKey: SetKey, tses: real, timeSpan: real, order: seq<string>)
    requires IsOrderOf(order, SiteGmfs(sites, pointAt, fields))
    modifies store
    ensures Sliceable(SiteGmfs(sites, pointAt, fields), order)
    ensures store.data == Apply(old(store.data), SliceWrites(jobId, SiteGmfs(sites, pointAt, fields),
                                                             order, setKey, tses, timeSpan))
  {
    var gmfs := GetDbGmfs(sites, pointAt, fields);
    OrderKeysSplit(sites, pointAt, fields, order);
    StoreSlices(store, jobId, gmfs, setKey, tses, timeSpan, order);
  }

  /** The loop of slice_gmfs over the keys in dictionary order: each site's
      list goes under gmf_set_key of its key's column and row pieces. */
  method StoreSlices(store: GmfSliceStore, jobId: int, gmfs: map<string, seq<real>>, setKey: SetKey,
                     tses: real, timeSpan: real, order: seq<string>)
    requires Sliceable(gmfs, order)
    modifies store
    ensures store.data == Apply(old(store.data), SliceWrites(jobId, gmfs, order, setKey, tses, timeSpan))
  {
    assert order[0..] == order;
    var t := 0;
    while t < |order|
      invariant 0 <= t <= |order|
      invariant Apply(store.data, SliceWrites(jobId, gmfs, order[t..], setKey, tses, timeSpan)) ==
                Apply(old(store.data), SliceWrites(jobId, gmfs, order, setKey, tses, timeSpan))
    {
      var key := order[t];
      var parts := Split(key, KeySep);
      var keyGmf := setKey(jobId, parts[1], parts[0]);
      assert order[t..][1..] == order[t + 1..];
      store.data := store.data[keyGmf := GmfSlice(gmfs[key], tses, timeSpan)];
      t := t + 1;
    }
  }

  /** The texts of two integers are equal only when the integers are. */
  lemma IntToStringInjective(a: int, b: int)
    requires IntToString(a) == IntToString(b)
    ensures a == b
  {
    ParseIntToString(a);
    ParseIntToString(b);
  }

  /** The write for a grid point's key goes where the reader looks: under
      gmf_set_key of the point's column text, then its row text. */
  lemma SiteWrite(jobId: int, gmfs: map<string, seq<real>>, p: GridPoint, setKey: SetKey, tses: real, timeSpan: real)
    requires GmfKey(p) in gmfs
    ensures TwoPieces(GmfKey(p))
    ensures SliceWrite(jobId, gmfs, GmfKey(p), setKey, tses, timeSpan) ==
      (setKey(jobId, IntToString(p.column), IntToString(p.row)), GmfSlice(gmfs[GmfKey(p)], tses, timeSpan))
  {
    KeyPieces(p);
  }

  /** Two grid points whose slices go under the same key are the same
      point, when gmf_set_key can be read back. */
  lemma SliceKeysDistinct(jobId: int, p: GridPoint, q: GridPoint, setKey: SetKey,
                          parse: string -> (int, string, string))
    requires ReadsBack(setKey, parse)
    requires setKey(jobId, IntToString(p.column), IntToString(p.row)) ==
             setKey(jobId, IntToString(q.column), IntToString(q.row))
    ensures p == q
  {
    assert parse(setKey(jobId, IntToString(p.column), IntToString(p.row))) ==
           (jobId, IntToString(p.column), IntToString(p.row));
    IntToStringInjective(p.column, q.column);
    IntToStringInjective(p.row, q.row);
  }

  /** Different keys of a block are stored under different GMF-set keys. */
  lemma SliceWritesDistinct(jobId: int, sites: seq<Site>, pointAt: Site -> GridPoint, fields: seq<Field>,
                            setKey: SetKey, parse: string -> (int, string, string), tses: real, timeSpan: real,
                            order: seq<string>, t: nat, u: nat)
    requires IsOrderOf(order, SiteGmfs(sites, pointAt, fields))
    requires ReadsBack(setKey, parse)
    requires t < |order| && u < |order| && t != u
    ensures Sliceable(SiteGmfs(sites, pointAt, fields), order)
    ensures var w := SliceWrites(jobId, SiteGmfs(sites, pointAt, fields), order, setKey, tses, timeSpan);
      w[t].0 != w[u].0
  {
    OrderKeysSplit(sites, pointAt, fields, order);
    SiteGmfsAtSites(sites, pointAt, fields);
    var gmfs := SiteGmfs(sites, pointAt, fields);
    var a :| 0 <= a < |sites| && order[t] == GmfKey(pointAt(sites[a]));
    var b :| 0 <= b < |sites| && order[u] == GmfKey(pointAt(sites[b]));
    var p, q := pointAt(sites[a]), pointAt(sites[b]);
    SliceWritesAt(jobId, gmfs, order, setKey, tses, timeSpan, t);
    SliceWritesAt(jobId, gmfs, order, setKey, tses, timeSpan, u);
    SiteWrite(jobId, gmfs, p, setKey, tses, timeSpan);
    SiteWrite(jobId, gmfs, q, setKey, tses, timeSpan);
    if setKey(jobId, IntToString(p.column), IntToString(p.row)) ==
       setKey(jobId, IntToString(q.column), IntToString(q.row)) {
      SliceKeysDistinct(jobId, p, q, setKey, parse);
      assert false;
    }
  }

  /** The slices land where _compute_loss and _compute_bcr look for them:
      the reader's gmf_set_key(job_id, point.column, point.row) of every
      site's grid point holds that site's values, whatever the order of
      gmfs.items(), provided gmf_set_key can be read back. */
  lemma SliceThenRead(oldData: map<string, GmfSlice>, jobId: int, sites: seq<Site>, pointAt: Site -> GridPoint,
                      fields: seq<Field>, setKey: SetKey, parse: string -> (int, string, string),
                      tses: real, timeSpan: real, order: seq<string>, m: int)
    requires IsOrderOf(order, SiteGmfs(sites, pointAt, fields))
    requires ReadsBack(setKey, parse)
    requires 0 <= m < |sites|
    ensures Sliceable(SiteGmfs(sites, pointAt, fields), order)
    ensures var p := pointAt(sites[m]);
      var data := Apply(oldData, SliceWrites(jobId, SiteGmfs(sites, pointAt, fields), order, setKey, tses, timeSpan));
      var readKey := setKey(jobId, IntToString(p.column), IntToString(p.row));
      readKey in data && data[readKey] == GmfSlice(Samples(fields, p), tses, timeSpan)
  {
    OrderKeysSplit(sites, pointAt, fields, order);
    SiteGmfsAtSites(sites, pointAt, fields);
    var gmfs := SiteGmfs(sites, pointAt, fields);
    var p := pointAt(sites[m]);
    var writes := SliceWrites(jobId, gmfs, order, setKey, tses, timeSpan);
    var t :| 0 <= t < |order| && order[t] == GmfKey(p);
    SliceWritesAt(jobId, gmfs, order, setKey, tses, timeSpan, t);
    SiteWrite(jobId, gmfs, p, setKey, tses, timeSpan);
    forall u | t < u < |writes| ensures writes[u].0 != writes[t].0 {
      SliceWritesDistinct(jobId, sites, pointAt, fields, setKey, parse, tses, timeSpan, order, u, t);
    }
    ApplyLastWrite(oldData, writes, t);
  }

  // ------------------------------------------------------------ per-asset losses

  /** An exposure asset as the store returns it. */
  datatype Asset = Asset(assetId: string, taxonomy: string, assetValue: real)

  /** A vulnerability function of the model loaded from the store. */
  datatype VulnFunction = VulnFunction(imls: seq<real>, lossRatios: seq<real>, covs: seq<real>)

  datatype Curve = Curve(abscissae: seq<real>, ordinates: seq<real>)

  /** general.compute_loss_ratios and general.compute_loss_ratio_curve
      (with the epsilon provider built from the parameters folded in): not
      part of this model. */
  datatype RiskMath = RiskMath(
    lossRatios: (VulnFunction, GmfSlice, Asset) -> seq<real>,
    lossRatioCurve: (VulnFunction, GmfSlice, Asset, int, Option<seq<real>>) -> Curve)

  /** compute_loss_ratios: None for an asset whose taxonomy has no
      vulnerability function. */
  function ComputeLossRatios(vulnCurves: map<string, VulnFunction>, asset: Asset, gmfSlice: GmfSlice,
                             math: RiskMath): (r: Option<seq<real>>)
    ensures r.None? <==> asset.taxonomy !in vulnCurves
    ensures r.Some? ==> r.value == math.lossRatios(vulnCurves[asset.taxonomy], gmfSlice, asset)
  {
    if asset.taxonomy !in vulnCurves then None
    else Some(math.lossRatios(vulnCurves[asset.taxonomy], gmfSlice, asset))
  }

  predicate AllZero(xs: seq<real>) {
    forall i :: 0 <= i < |xs| ==> xs[i] == 0.0
  }

  /** compute_loss_ratio_curve: None for an unknown taxonomy, and None when
      every ordinate of the computed curve is zero. */
  function ComputeLossRatioCurve(vulnCurves: map<string, VulnFunction>, asset: Asset, gmfSlice: GmfSlice,
                                 lossRatios: Option<seq<real>>, bins: int, math: RiskMath): (r: Option<Curve>)
    ensures r.None? <==> (asset.taxonomy !in vulnCurves ||
      AllZero(math.lossRatioCurve(vulnCurves[asset.taxonomy], gmfSlice, asset, bins, lossRatios).ordinates))
    ensures r.Some? ==>
      r.value == math.lossRatioCurve(vulnCurves[asset.taxonomy], gmfSlice, asset, bins, lossRatios) &&
      exists i :: 0 <= i < |r.value.ordinates| && r.value.ordinates[i] != 0.0
  {
    if asset.taxonomy !in vulnCurves then None
    else
      var curve := math.lossRatioCurve(vulnCurves[asset.taxonomy], gmfSlice, asset, bins, lossRatios);
      if AllZero(curve.ordinates) then None else Some(curve)
  }

  /** Curve.rescale_abscissae(value): every abscissa times the value. */
  function RescaleAbscissae(c: Curve, value: real): (r: Curve)
    ensures |r.abscissae| == |c.abscissae| && r.ordinates == c.ordinates
    ensures forall i :: 0 <= i < |c.abscissae| ==> r.abscissae[i] == c.abscissae[i] * value
  {
    Curve(seq(|c.abscissae|, i requires 0 <= i < |c.abscissae| => c.abscissae[i] * value), c.ordinates)
  }

  /** compute_loss_curve: None for a missing asset, otherwise the ratio
      curve with its abscissae scaled by the asset's value. */
  function ComputeLossCurve(lossRatioCurve: Curve, asset: Option<Asset>): (r: Option<Curve>)
    ensures r.None? <==> asset.None?
    ensures r.Some? ==>
      r.value.ordinates == lossRatioCurve.ordinates && |r.value.abscissae| == |lossRatioCurve.abscissae| &&
      forall i :: 0 <= i < |lossRatioCurve.abscissae| ==>
        r.value.abscissae[i] == lossRatioCurve.abscissae[i] * asset.value.assetValue
  {
    if asset.None? then None else Some(RescaleAbscissae(lossRatioCurve, asset.value.assetValue))
  }

  /** An asset of unknown taxonomy yields neither loss ratios nor a loss
      ratio curve. The asset is not skipped: _compute_loss goes on to
      multiply those None ratios by the asset's value, which raises. */
  lemma UnknownTaxonomyGivesNone(vulnCurves: map<string, VulnFunction>, asset: Asset, gmfSlice: GmfSlice,
                                 bins: int, math: RiskMath)
    requires asset.taxonomy !in vulnCurves
    ensures ComputeLossRatios(vulnCurves, asset, gmfSlice, math).None?
    ensures ComputeLossRatioCurve(vulnCurves, asset, gmfSlice,
                                  ComputeLossRatios(vulnCurves, asset, gmfSlice, math), bins, math).None?
  {
  }

  /** Rescaling keeps the ratio curve's non-zero ordinate: a loss curve
      derived from a returned ratio curve is never all zeros. */
  lemma LossCurveNotAllZero(vulnCurves: map<string, VulnFunction>, asset: Asset, gmfSlice: GmfSlice,
                            lossRatios: Option<seq<real>>, bins: int, math: RiskMath)
    requires ComputeLossRatioCurve(vulnCurves, asset, gmfSlice, lossRatios, bins, math).Some?
    ensures var c := ComputeLossRatioCurve(vulnCurves, asset, gmfSlice, lossRatios, bins, math).value;
      ComputeLossCurve(c, Some(asset)).Some? && !AllZero(ComputeLossCurve(c, Some(asset)).value.ordinates)
  {
    var c := ComputeLossRatioCurve(vulnCurves, asset, gmfSlice, lossRatios, bins, math).value;
    var i :| 0 <= i < |c.ordinates| && c.ordinates[i] != 0.0;
    assert ComputeLossCurve(c, Some(asset)).value.ordinates[i] != 0.0;
  }

  // ------------------------------------------------------------ plotting

  const AggregateLossCurveKey: string := "AGGREGATE_LOSS_CURVE"
  const OutputDirKey: string := "OUTPUT_DIR"
  const InvestigationTimeKey: string := "INVESTIGATION_TIME"

  /** The dictionary CurvePlot.write receives. */
  datatype PlotData = PlotData(abscissae: seq<real>, ordinates: seq<real>, abscissaProperty: string,
                               ordinateProperty: string, curveTitle: string)

  /** _for_plotting */
  function ForPlotting(c: Curve, timeSpan: string): (d: PlotData)
    ensures d.abscissae == c.abscissae && d.ordinates == c.ordinates
    ensures d.curveTitle == "Aggregate Loss Curve" && d.abscissaProperty == "Economic Losses"
    ensures d.ordinateProperty == "PoE in " + timeSpan + " years"
  {
    PlotData(c.abscissae, c.ordinates, "Economic Losses", "PoE in " + timeSpan + " years", "Aggregate Loss Curve")
  }

  /** A plot written to a file. */
  datatype Plot = Plot(path: string, data: PlotData)

  /** A dictionary lookup that raised KeyError. */
  datatype PlotError = MissingParam(key: string)

  /** The last component of a joined path is what was joined on. */
  lemma {:induction false} AfterLastSlashAppend(x: string, f: string)
    requires x == [] || x[|x| - 1] == '/'
    requires '/' !in f
    ensures AfterLastSlash(x + f) == |x|
    decreases |f|
  {
    if f == [] {
      assert x + f == x;
    } else {
      var g := f[..|f| - 1];
      assert (x + f)[..|x + f| - 1] == x + g;
      AfterLastSlashAppend(x, g);
    }
  }

  lemma JoinLastComponent(a: string, f: string)
    requires '/' !in f && !IsAbs(f)
    ensures Join(a, f)[AfterLastSlash(Join(a, f))..] == f
  {
    if a == [] || a[|a| - 1] == '/' {
      AfterLastSlashAppend(a, f);
    } else {
      AfterLastSlashAppend(a + "/", f);
      assert a + "/" + f == (a + "/") + f;
    }
  }

  /** plot_aggregate_curve: nothing at all without AGGREGATE_LOSS_CURVE;
      otherwise the plot of the curve, written under the output directory
      to the calculation's file name. */
  function PlotAggregateCurve(proxy: CalcProxy.CalculationProxy, curve: Curve): (r: Result<Option<Plot>, PlotError>)
    reads proxy
    ensures !proxy.Has(AggregateLossCurveKey) ==> r == Success(None)
    ensures proxy.Has(AggregateLossCurveKey) ==>
      (r.Success? <==> BasePathKey in proxy.params && OutputDirKey in proxy.params &&
                       InvestigationTimeKey in proxy.params)
    ensures r.Success? && r.value.Some? ==>
      var path := r.value.value.path;
      path == Join(Join(proxy.params[BasePathKey], proxy.params[OutputDirKey]), Filename(proxy.calculationId)) &&
      path[AfterLastSlash(path)..] == Filename(proxy.calculationId) &&
      r.value.value.data == ForPlotting(curve, proxy.params[InvestigationTimeKey])
    ensures r.Failure? ==>
      r.error.key in [BasePathKey, OutputDirKey, InvestigationTimeKey] && r.error.key !in proxy.params
  {
    if !proxy.Has(AggregateLossCurveKey) then Success(None)
    else if BasePathKey !in proxy.params then Failure(MissingParam(BasePathKey))
    else if OutputDirKey !in proxy.params then Failure(MissingParam(OutputDirKey))
    else
      var dir := Join(proxy.params[BasePathKey], proxy.params[OutputDirKey]);
      var path := Join(dir, Filename(proxy.calculationId));
      if InvestigationTimeKey !in proxy.params then Failure(MissingParam(InvestigationTimeKey))
      else
        JoinLastComponent(dir, Filename(proxy.calculationId));
        Success(Some(Plot(path, ForPlotting(curve, proxy.params[InvestigationTimeKey]))))
  }
}
