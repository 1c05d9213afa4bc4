/** Include-aware resolution of a job configuration file (_parse_config_file
    in openquake/engine.py). ConfigParser's reading of a file is abstracted: the
    file system maps an absolute path to the (section, key, value) entries the
    parser reports, in parser.sections() / parser.items(section) order. */
module ConfigResolver {
  import opened Results
  import opened Seqs
  import opened Strings
  import opened Paths
  import opened ParamCatalog
  import opened Writes

  datatype Entry = Entry(section: string, key: string, value: string)

  type FileSystem = map<string, seq<Entry>>

  /** ValidationException for a missing file; RuntimeError when the include
      chain is deeper than the interpreter's recursion limit (modelled by fuel:
      the source has no cycle detection). */
  datatype ConfigError = NotFound(path: string) | RecursionLimit

  datatype Parsed = Parsed(params: map<string, string>, sections: seq<string>)

  /** The state the loop of _parse_config_file carries: the (reassigned)
      config_file, the params dictionary and the sections list. */
  datatype Acc = Acc(file: string, params: map<string, string>, sections: seq<string>)

  /** RE_INCLUDE.match(key) for RE_INCLUDE = ^(.*)_INCLUDE: "_INCLUDE" occurs
      in key with no newline before it. */
  predicate IsIncludeKey(key: string) {
    |key| >= 8 && (key[..8] == "_INCLUDE" || (key[0] != '\n' && IsIncludeKey(key[1..])))
  }

  /** The directory written as BASE_PATH for a config file. */
  function BaseDir(cwd: string, configFile: string): string {
    AbsPath(cwd, Dirname(AbsPath(cwd, configFile)))
  }

  /** What _parse_config_file(configFile) returns, with fuel standing for the
      interpreter's recursion depth. */
  function Resolve(fs: FileSystem, cwd: string, configFile: string, fuel: nat): Result<Parsed, ConfigError>
    decreases fuel, 1
  {
    if fuel == 0 then Failure(RecursionLimit)
    else
      var file := AbsPath(cwd, configFile);
      if file !in fs then Failure(NotFound(file))
      else
        match ResolveEntries(fs, cwd, fuel - 1, Acc(file, map[], []), fs[file])
        case Failure(err) => Failure(err)
        case Success(acc) =>
          Success(Parsed(acc.params[BasePathKey := BaseDir(cwd, configFile)], Dedup(acc.sections)))
  }

  /** The loop over the entries of one file; included files are resolved
      with the remaining depth. */
  function ResolveEntries(fs: FileSystem, cwd: string, depth: nat, acc: Acc, entries: seq<Entry>): Result<Acc, ConfigError>
    decreases depth + 1, 0, |entries|
  {
    if entries == [] then Success(acc)
    else
      var e := entries[0];
      var key := Upper(e.key);
      if IsIncludeKey(key) then
        var file := Join(Dirname(acc.file), e.value);
        match Resolve(fs, cwd, file, depth)
        case Failure(err) => Failure(err)
        case Success(sub) =>
          ResolveEntries(fs, cwd, depth, Acc(file, acc.params + sub.params, acc.sections + sub.sections), entries[1..])
      else
        ResolveEntries(fs, cwd, depth, Acc(acc.file, acc.params[key := e.value], acc.sections + [e.section]), entries[1..])
  }

  /** _parse_config_file: a loop over the entries of the file that updates
      params and sections, recursing into every include. */
  method ParseConfigFile(fs: FileSystem, cwd: string, configFile: string, fuel: nat)
    returns (r: Result<Parsed, ConfigError>)
    ensures r == Resolve(fs, cwd, configFile, fuel)
    decreases fuel
  {
    if fuel == 0 {
      return Failure(RecursionLimit);
    }
    var file := AbsPath(cwd, configFile);
    var basePath := AbsPath(cwd, Dirname(file));
    if file !in fs {
      return Failure(NotFound(file));
    }
    var entries := fs[file];
    var params: map<string, string> := map[];
    var sections: seq<string> := [];
    var i := 0;
    while i < |entries|
      invariant 0 <= i <= |entries|
      invariant ResolveEntries(fs, cwd, fuel - 1, Acc(file, params, sections), entries[i..])
             == ResolveEntries(fs, cwd, fuel - 1, Acc(AbsPath(cwd, configFile), map[], []), entries)
    {
      var e := entries[i];
      assert entries[i..][0] == e && entries[i..][1..] == entries[i + 1..];
      var key := Upper(e.key);
      if IsIncludeKey(key) {
        file := Join(Dirname(file), e.value);
        var sub := ParseConfigFile(fs, cwd, file, fuel - 1);
        if sub.Failure? {
          return Failure(sub.error);
        }
        sections := sections + sub.value.sections;
        params := params + sub.value.params;
      } else {
        sections := sections + [e.section];
        params := params[key := e.value];
      }
      i := i + 1;
    }
    params := params[BasePathKey := basePath];
    return Success(Parsed(params, Dedup(sections)));
  }

  // ------------------------------------------------------------------
  // Errors

  lemma {:induction false} NotFoundIsMissing(fs: FileSystem, cwd: string, f: string, fuel: nat, path: string)
    requires Resolve(fs, cwd, f, fuel) == Failure(NotFound(path))
    ensures path !in fs
    decreases fuel, 1
  {
    var file := AbsPath(cwd, f);
    if file in fs {
      EntriesNotFoundIsMissing(fs, cwd, fuel - 1, Acc(file, map[], []), fs[file], path);
    }
  }

  lemma {:induction false} EntriesNotFoundIsMissing(fs: FileSystem, cwd: string, depth: nat, acc: Acc, entries: seq<Entry>, path: string)
    requires ResolveEntries(fs, cwd, depth, acc, entries) == Failure(NotFound(path))
    ensures path !in fs
    decreases depth + 1, 0, |entries|
  {
    var e := entries[0];
    var key := Upper(e.key);
    if IsIncludeKey(key) {
      var file := Join(Dirname(acc.file), e.value);
      match Resolve(fs, cwd, file, depth)
      case Failure(err) => NotFoundIsMissing(fs, cwd, file, depth, path);
      case Success(sub) =>
        EntriesNotFoundIsMissing(fs, cwd, depth, Acc(file, acc.params + sub.params, acc.sections + sub.sections), entries[1..], path);
    } else {
      EntriesNotFoundIsMissing(fs, cwd, depth, Acc(acc.file, acc.params[key := e.value], acc.sections + [e.section]), entries[1..], path);
    }
  }

  /** A missing root file, and only a missing root file, makes resolution
      fail naming the root file itself. */
  lemma MissingRootFails(fs: FileSystem, cwd: string, f: string, fuel: nat)
    requires fuel > 0
    ensures AbsPath(cwd, f) !in fs <==> Resolve(fs, cwd, f, fuel) == Failure(NotFound(AbsPath(cwd, f)))
  {
    if Resolve(fs, cwd, f, fuel) == Failure(NotFound(AbsPath(cwd, f))) {
      NotFoundIsMissing(fs, cwd, f, fuel, AbsPath(cwd, f));
    }
  }

  // ------------------------------------------------------------------
  // Shape of the result

  predicate WellFormedKeys(params: map<string, string>) {
    forall k :: k in params ==> Upper(k) == k && !IsIncludeKey(k)
  }

  lemma BasePathKeyWellFormed()
    ensures Upper(BasePathKey) == BasePathKey && !IsIncludeKey(BasePathKey)
  {
    BasePathKeyUpper();
    BasePathKeyNotInclude();
  }

  lemma BasePathKeyUpper()
    ensures Upper(BasePathKey) == BasePathKey
  {
    var k := BasePathKey;
    var u := Upper(k);
    forall i | 0 <= i < |k| ensures u[i] == k[i] {
      assert k[i] == '_' || 'A' <= k[i] <= 'Z';
    }
  }

  lemma BasePathKeyNotInclude()
    ensures !IsIncludeKey(BasePathKey)
  {
    var k := BasePathKey;
    assert k[..8][0] == 'B';
    var t := k[1..];
    assert t[..8][0] == 'A';
    assert |t[1..]| == 7;
  }

  /** Keys are upper-cased, include keys are never stored, the root file's
      BASE_PATH is written last (so it wins over any included file's), and the
      sections have no duplicates. */
  lemma {:induction false} ResolvedShape(fs: FileSystem, cwd: string, f: string, fuel: nat)
    requires Resolve(fs, cwd, f, fuel).Success?
    ensures var p := Resolve(fs, cwd, f, fuel).value;
      && WellFormedKeys(p.params)
      && BasePathKey in p.params && p.params[BasePathKey] == BaseDir(cwd, f)
      && NoDup(p.sections)
    decreases fuel, 1
  {
    var file := AbsPath(cwd, f);
    EntriesShape(fs, cwd, fuel - 1, Acc(file, map[], []), fs[file]);
    BasePathKeyWellFormed();
  }

  lemma {:induction false} EntriesShape(fs: FileSystem, cwd: string, depth: nat, acc: Acc, entries: seq<Entry>)
    requires WellFormedKeys(acc.params)
    requires ResolveEntries(fs, cwd, depth, acc, entries).Success?
    ensures WellFormedKeys(ResolveEntries(fs, cwd, depth, acc, entries).value.params)
    decreases depth + 1, 0, |entries|
  {
    if entries != [] {
      var e := entries[0];
      var key := Upper(e.key);
      UpperIdempotent(e.key);
      if IsIncludeKey(key) {
        var file := Join(Dirname(acc.file), e.value);
        var sub := Resolve(fs, cwd, file, depth).value;
        ResolvedShape(fs, cwd, file, depth);
        EntriesShape(fs, cwd, depth, Acc(file, acc.params + sub.params, acc.sections + sub.sections), entries[1..]);
      } else {
        EntriesShape(fs, cwd, depth, Acc(acc.file, acc.params[key := e.value], acc.sections + [e.section]), entries[1..]);
      }
    }
  }

  // ------------------------------------------------------------------
  // Reference: the sequence of assignments, merged later-wins

  /** Every assignment the resolution performs, in execution order, with
      included files expanded in place, and every section it records. */
  datatype Trace = Trace(writes: seq<(string, string)>, sections: seq<string>)

  function TraceOf(fs: FileSystem, cwd: string, configFile: string, fuel: nat): Result<Trace, ConfigError>
    decreases fuel, 1
  {
    if fuel == 0 then Failure(RecursionLimit)
    else
      var file := AbsPath(cwd, configFile);
      if file !in fs then Failure(NotFound(file))
      else
        match TraceEntries(fs, cwd, fuel - 1, file, fs[file])
        case Failure(err) => Failure(err)
        case Success(t) => Success(Trace(t.writes + [(BasePathKey, BaseDir(cwd, configFile))], t.sections))
  }

  function TraceEntries(fs: FileSystem, cwd: string, depth: nat, file: string, entries: seq<Entry>): Result<Trace, ConfigError>
    decreases depth + 1, 0, |entries|
  {
    if entries == [] then Success(Trace([], []))
    else
      var e := entries[0];
      var key := Upper(e.key);
      if IsIncludeKey(key) then
        var inc := Join(Dirname(file), e.value);
        match TraceOf(fs, cwd, inc, depth)
        case Failure(err) => Failure(err)
        case Success(t) =>
          match TraceEntries(fs, cwd, depth, inc, entries[1..])
          case Failure(err) => Failure(err)
          case Success(rest) => Success(Trace(t.writes + rest.writes, t.sections + rest.sections))
      else
        match TraceEntries(fs, cwd, depth, file, entries[1..])
        case Failure(err) => Failure(err)
        case Success(rest) => Success(Trace([(key, e.value)] + rest.writes, [e.section] + rest.sections))
  }

  function Elems(s: seq<string>): set<string> {
    set x | x in s
  }

  /** Resolution is the later-wins merge of every assignment in inclusion
      order, over the union of every section visited; both fail alike. */
  lemma {:induction false} ResolveMatchesTrace(fs: FileSystem, cwd: string, f: string, fuel: nat)
    ensures Resolve(fs, cwd, f, fuel).Success? <==> TraceOf(fs, cwd, f, fuel).Success?
    ensures Resolve(fs, cwd, f, fuel).Failure? ==>
      Resolve(fs, cwd, f, fuel).error == TraceOf(fs, cwd, f, fuel).error
    ensures Resolve(fs, cwd, f, fuel).Success? ==>
      && Resolve(fs, cwd, f, fuel).value.params == Apply(map[], TraceOf(fs, cwd, f, fuel).value.writes)
      && Elems(Resolve(fs, cwd, f, fuel).value.sections) == Elems(TraceOf(fs, cwd, f, fuel).value.sections)
    decreases fuel, 1
  {
    if fuel > 0 {
      var file := AbsPath(cwd, f);
      if file in fs {
        var acc0 := Acc(file, map[], []);
        EntriesMatchTrace(fs, cwd, fuel - 1, acc0, fs[file]);
        var re := ResolveEntries(fs, cwd, fuel - 1, acc0, fs[file]);
        var te := TraceEntries(fs, cwd, fuel - 1, file, fs[file]);
        if re.Success? {
          var w := te.value.writes;
          ApplyConcat(map[], w, [(BasePathKey, BaseDir(cwd, f))]);
          assert [(BasePathKey, BaseDir(cwd, f))][1..] == [];
          var ds := Dedup(re.value.sections);
          assert Elems(ds) == Elems(re.value.sections) by {
            forall x | x in Elems(re.value.sections) ensures x in Elems(ds) {
              var i :| 0 <= i < |re.value.sections| && re.value.sections[i] == x;
            }
            forall x | x in Elems(ds) ensures x in Elems(re.value.sections) {
              var i :| 0 <= i < |ds| && ds[i] == x;
            }
          }
        }
      }
    }
  }

  lemma {:induction false} EntriesMatchTrace(fs: FileSystem, cwd: string, depth: nat, acc: Acc, entries: seq<Entry>)
    ensures ResolveEntries(fs, cwd, depth, acc, entries).Success? <==> TraceEntries(fs, cwd, depth, acc.file, entries).Success?
    ensures ResolveEntries(fs, cwd, depth, acc, entries).Failure? ==>
      ResolveEntries(fs, cwd, depth, acc, entries).error == TraceEntries(fs, cwd, depth, acc.file, entries).error
    ensures ResolveEntries(fs, cwd, depth, acc, entries).Success? ==>
      && ResolveEntries(fs, cwd, depth, acc, entries).value.params
         == Apply(acc.params, TraceEntries(fs, cwd, depth, acc.file, entries).value.writes)
      && Elems(ResolveEntries(fs, cwd, depth, acc, entries).value.sections)
         == Elems(acc.sections) + Elems(TraceEntries(fs, cwd, depth, acc.file, entries).value.sections)
    decreases depth + 1, 0, |entries|
  {
    if entries == [] {
      assert Elems([]) == {};
    } else {
      var e := entries[0];
      var key := Upper(e.key);
      if IsIncludeKey(key) {
        var file := Join(Dirname(acc.file), e.value);
        ResolveMatchesTrace(fs, cwd, file, depth);
        if Resolve(fs, cwd, file, depth).Success? {
          var sub := Resolve(fs, cwd, file, depth).value;
          var t := TraceOf(fs, cwd, file, depth).value;
          var acc' := Acc(file, acc.params + sub.params, acc.sections + sub.sections);
          EntriesMatchTrace(fs, cwd, depth, acc', entries[1..]);
          var rest := TraceEntries(fs, cwd, depth, file, entries[1..]);
          if rest.Success? {
            ApplyIsUpdate(acc.params, t.writes);
            ApplyConcat(acc.params, t.writes, rest.value.writes);
            ElemsConcat(acc.sections, sub.sections);
            ElemsConcat(t.sections, rest.value.sections);
          }
        }
      } else {
        var acc' := Acc(acc.file, acc.params[key := e.value], acc.sections + [e.section]);
        EntriesMatchTrace(fs, cwd, depth, acc', entries[1..]);
        var rest := TraceEntries(fs, cwd, depth, acc.file, entries[1..]);
        if rest.Success? {
          assert ([(key, e.value)] + rest.value.writes)[1..] == rest.value.writes;
          ElemsConcat(acc.sections, [e.section]);
          ElemsConcat([e.section], rest.value.sections);
        }
      }
    }
  }

  lemma ElemsConcat(a: seq<string>, b: seq<string>)
    ensures Elems(a + b) == Elems(a) + Elems(b)
  {
  }
}
