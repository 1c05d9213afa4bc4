/** Running a calculation (openquake/engine.py: run_calculation up to the
    fork, the worker branch after it, and _launch_calculation): calculators
    are looked up per domain and calculation mode and driven through their
    four phases; the worker records the outcome on the calculation. A
    calculator is known only by its class name and by which of its phases
    raise. */
module CalculatorDispatch {
  import opened Results
  import opened Strings
  import opened Seqs
  import opened Paths
  import CalcProxy

  datatype Phase = Analyze | PreExecute | Execute | PostExecute

  /** The order _launch_calculation calls the phases in. */
  const Lifecycle: seq<Phase> := [Analyze, PreExecute, Execute, PostExecute]

  /** The domains, in the order _launch_calculation visits them. */
  const Domains: seq<string> := ["hazard", "risk"]

  /** A call of one phase of the calculator for one domain. */
  datatype Event = Invoked(domain: string, phase: Phase)

  /** CALCS[job_type][calc_mode] raising KeyError, a phase raising, or
      to_kvs raising before the domain loop (a missing input file). */
  datatype LaunchError =
    | NoCalculator(domain: string, mode: string)
    | PhaseRaised(domain: string, phase: Phase)
    | SetupFailed(cause: CalcProxy.ProxyError)

  /** CALCS: calculator class name by domain and calculation mode. */
  type Registry = map<string, map<string, string>>

  /** Which phases of which calculator class raise. */
  type Raises = (string, Phase) -> bool

  // ------------------------------------------------------------ reference

  /** The phases invoked, in order, up to and including the first that
      raises. */
  function PhasesRun(domain: string, cls: string, raises: Raises, phases: seq<Phase>)
    : (seq<Event>, Option<LaunchError>)
  {
    if phases == [] then ([], None)
    else
      var e := Invoked(domain, phases[0]);
      if raises(cls, phases[0]) then ([e], Some(PhaseRaised(domain, phases[0])))
      else
        var rest := PhasesRun(domain, cls, raises, phases[1..]);
        ([e] + rest.0, rest.1)
  }

  /** The reference behaviour of _launch_calculation over the given domains. */
  function Launch(calcs: Registry, mode: string, sections: seq<string>, raises: Raises, domains: seq<string>)
    : (seq<Event>, Option<LaunchError>)
  {
    if domains == [] then ([], None)
    else
      var d := domains[0];
      if Upper(d) !in sections then Launch(calcs, mode, sections, raises, domains[1..])
      else if d !in calcs || mode !in calcs[d] then ([], Some(NoCalculator(d, mode)))
      else
        var run := PhasesRun(d, calcs[d][mode], raises, Lifecycle);
        if run.1.Some? then run
        else
          var rest := Launch(calcs, mode, sections, raises, domains[1..]);
          (run.0 + rest.0, rest.1)
  }

  // ------------------------------------------------------------ the code

  /** Running the next phase after `done` without a raise moves it into `done`. */
  lemma PhasesRunStep(done: seq<Event>, domain: string, cls: string, raises: Raises, phases: seq<Phase>)
    requires phases != [] && !raises(cls, phases[0])
    ensures var r := PhasesRun(domain, cls, raises, phases);
      var r1 := PhasesRun(domain, cls, raises, phases[1..]);
      (done + r.0, r.1) == ((done + [Invoked(domain, phases[0])]) + r1.0, r1.1)
  {
    var r1 := PhasesRun(domain, cls, raises, phases[1..]);
    assert done + ([Invoked(domain, phases[0])] + r1.0) == (done + [Invoked(domain, phases[0])]) + r1.0;
  }

  /** The four phase calls of one calculator. */
  method RunCalculator(domain: string, cls: string, raises: Raises)
    returns (events: seq<Event>, err: Option<LaunchError>)
    ensures (events, err) == PhasesRun(domain, cls, raises, Lifecycle)
  {
    // after each phase that does not raise, the rest of the run is PhasesRun of `todo`
    ghost var todo := Lifecycle;
    events := [];
    assert events + PhasesRun(domain, cls, raises, todo).0 == PhasesRun(domain, cls, raises, todo).0;
    if raises(cls, Analyze) {
      return events + [Invoked(domain, Analyze)], Some(PhaseRaised(domain, Analyze));
    }
    PhasesRunStep(events, domain, cls, raises, todo);
    events, todo := events + [Invoked(domain, Analyze)], todo[1..];
    if raises(cls, PreExecute) {
      return events + [Invoked(domain, PreExecute)], Some(PhaseRaised(domain, PreExecute));
    }
    PhasesRunStep(events, domain, cls, raises, todo);
    events, todo := events + [Invoked(domain, PreExecute)], todo[1..];
    if raises(cls, Execute) {
      return events + [Invoked(domain, Execute)], Some(PhaseRaised(domain, Execute));
    }
    PhasesRunStep(events, domain, cls, raises, todo);
    events, todo := events + [Invoked(domain, Execute)], todo[1..];
    if raises(cls, PostExecute) {
      return events + [Invoked(domain, PostExecute)], Some(PhaseRaised(domain, PostExecute));
    }
    PhasesRunStep(events, domain, cls, raises, todo);
    events, todo := events + [Invoked(domain, PostExecute)], todo[1..];
    assert todo == [];
    assert events + [] == events;
    return events, None;
  }

  /** _launch_calculation's loop over the domains (the statistics, kvs and
      output-directory steps before it are not modelled). */
  method LaunchCalculation(calcs: Registry, mode: string, sections: seq<string>, raises: Raises)
    returns (events: seq<Event>, err: Option<LaunchError>)
    ensures (events, err) == Launch(calcs, mode, sections, raises, Domains)
  {
    events := [];
    var i := 0;
    assert Domains[0..] == Domains;
    assert events + Launch(calcs, mode, sections, raises, Domains).0 ==
           Launch(calcs, mode, sections, raises, Domains).0;
    while i < |Domains|
      invariant 0 <= i <= |Domains|
      invariant var rest := Launch(calcs, mode, sections, raises, Domains[i..]);
        Launch(calcs, mode, sections, raises, Domains) == (events + rest.0, rest.1)
    {
      assert Domains[i..][1..] == Domains[i + 1..];
      var jobType := Domains[i];
      if Upper(jobType) !in sections {
        i := i + 1;
        continue;
      }
      if jobType !in calcs || mode !in calcs[jobType] {
        assert events + [] == events;
        return events, Some(NoCalculator(jobType, mode));
      }
      var run, failure := RunCalculator(jobType, calcs[jobType][mode], raises);
      ghost var rest := Launch(calcs, mode, sections, raises, Domains[i + 1..]);
      assert failure.None? ==> (events + run) + rest.0 == events + (run + rest.0);
      events := events + run;
      if failure.Some? {
        return events, failure;
      }
      i := i + 1;
    }
    assert Domains[i..] == [];
    assert events + [] == events;
    return events, None;
  }

  // ------------------------------------------------------------ properties

  /** Every phase of a domain's calculator, in lifecycle order. */
  function AllPhases(domain: string): seq<Event> {
    [Invoked(domain, Analyze), Invoked(domain, PreExecute), Invoked(domain, Execute), Invoked(domain, PostExecute)]
  }

  /** What a job with the given sections runs when nothing fails: hazard
      before risk, all four phases each. */
  function FullTrace(sections: seq<string>): seq<Event> {
    (if "HAZARD" in sections then AllPhases("hazard") else []) +
    (if "RISK" in sections then AllPhases("risk") else [])
  }

  predicate IsPrefix<T(==)>(a: seq<T>, b: seq<T>) {
    |a| <= |b| && b[..|a|] == a
  }

  lemma {:induction false} PhasesRunPrefix(domain: string, cls: string, raises: Raises, phases: seq<Phase>)
    ensures var run := PhasesRun(domain, cls, raises, phases);
      IsPrefix(run.0, seq(|phases|, i requires 0 <= i < |phases| => Invoked(domain, phases[i]))) &&
      (run.1.None? ==> |run.0| == |phases|) &&
      (run.1.Some? ==> run.0 != [] && run.1.value == PhaseRaised(domain, run.0[|run.0| - 1].phase) &&
                       raises(cls, run.0[|run.0| - 1].phase))
  {
    if phases != [] {
      PhasesRunPrefix(domain, cls, raises, phases[1..]);
      var all := seq(|phases|, i requires 0 <= i < |phases| => Invoked(domain, phases[i]));
      var tail := seq(|phases[1..]|, i requires 0 <= i < |phases[1..]| => Invoked(domain, phases[1..][i]));
      assert all == [Invoked(domain, phases[0])] + tail;
    }
  }

  lemma UpperDomains()
    ensures Upper("hazard") == "HAZARD" && Upper("risk") == "RISK"
  {
    assert Upper("hazard")[0] == 'H' && Upper("hazard")[1] == 'A' && Upper("hazard")[2] == 'Z';
    assert Upper("hazard")[3] == 'A' && Upper("hazard")[4] == 'R' && Upper("hazard")[5] == 'D';
    assert Upper("risk")[0] == 'R' && Upper("risk")[1] == 'I';
    assert Upper("risk")[2] == 'S' && Upper("risk")[3] == 'K';
  }

  lemma LifecycleEvents(domain: string)
    ensures seq(|Lifecycle|, i requires 0 <= i < |Lifecycle| => Invoked(domain, Lifecycle[i])) == AllPhases(domain)
  {
  }

  /** One domain's share of the launch: a prefix of its four phases, all
      of them when nothing fails, ending with the phase that raised. */
  lemma DomainRun(d: string, calcs: Registry, mode: string, sections: seq<string>, raises: Raises)
    requires Upper(d) in sections && d in calcs && mode in calcs[d]
    ensures var run := PhasesRun(d, calcs[d][mode], raises, Lifecycle);
      IsPrefix(run.0, AllPhases(d)) &&
      (run.1.None? ==> run.0 == AllPhases(d)) &&
      (run.1.Some? ==> run.1.value.PhaseRaised? && run.0 != [] &&
                       run.0[|run.0| - 1] == Invoked(run.1.value.domain, run.1.value.phase))
  {
    PhasesRunPrefix(d, calcs[d][mode], raises, Lifecycle);
    LifecycleEvents(d);
  }

  /** An outcome follows a trace when its events are a prefix of the trace,
      all of it when there is no error, and a raising phase is the last
      event. */
  predicate Follows(r: (seq<Event>, Option<LaunchError>), trace: seq<Event>) {
    IsPrefix(r.0, trace) &&
    (r.1.None? ==> r.0 == trace) &&
    (r.1.Some? && r.1.value.PhaseRaised? ==>
      r.0 != [] && r.0[|r.0| - 1] == Invoked(r.1.value.domain, r.1.value.phase))
  }

  /** The risk half of the launch. */
  lemma RiskLaunch(calcs: Registry, mode: string, sections: seq<string>, raises: Raises)
    ensures Follows(Launch(calcs, mode, sections, raises, ["risk"]),
                    if "RISK" in sections then AllPhases("risk") else [])
  {
    UpperDomains();
    assert ["risk"][1..] == [];
    if "RISK" in sections && "risk" in calcs && mode in calcs["risk"] {
      DomainRun("risk", calcs, mode, sections, raises);
      var run := PhasesRun("risk", calcs["risk"][mode], raises, Lifecycle);
      assert run.0 + [] == run.0;
    }
  }

  /** The events are always a prefix of the full trace (hazard phases, then
      risk phases, each domain in lifecycle order): nothing runs out of
      order, and nothing runs after a failure. Without an error the whole
      trace runs; after a raising phase, that phase is the last event. */
  lemma LaunchFollowsLifecycle(calcs: Registry, mode: string, sections: seq<string>, raises: Raises)
    ensures Follows(Launch(calcs, mode, sections, raises, Domains), FullTrace(sections))
  {
    UpperDomains();
    RiskLaunch(calcs, mode, sections, raises);
    LaunchHazardFirst(calcs, mode, sections, raises);
    var h := if "HAZARD" in sections then AllPhases("hazard") else [];
    var k := if "RISK" in sections then AllPhases("risk") else [];
    assert FullTrace(sections) == h + k;
    var riskOnly := Launch(calcs, mode, sections, raises, ["risk"]);
    if "HAZARD" !in sections {
      assert h + k == k;
    } else if "hazard" in calcs && mode in calcs["hazard"] {
      DomainRun("hazard", calcs, mode, sections, raises);
      var run := PhasesRun("hazard", calcs["hazard"][mode], raises, Lifecycle);
      HazardThenRisk(run, riskOnly, h, k);
    }
  }

  /** A hazard run that follows h, then, unless it stopped, a risk launch that
      follows k, together follow h + k. */
  lemma HazardThenRisk(run: (seq<Event>, Option<LaunchError>), riskOnly: (seq<Event>, Option<LaunchError>),
                       h: seq<Event>, k: seq<Event>)
    requires Follows(run, h) && Follows(riskOnly, k)
    requires run.1.Some? ==> run.1.value.PhaseRaised?
    ensures Follows(if run.1.Some? then run else (run.0 + riskOnly.0, riskOnly.1), h + k)
  {
    if run.1.None? {
      assert (h + k)[..|h + riskOnly.0|] == h + riskOnly.0;
      if riskOnly.1.Some? && riskOnly.1.value.PhaseRaised? {
        assert (h + riskOnly.0)[|h + riskOnly.0| - 1] == riskOnly.0[|riskOnly.0| - 1];
      }
    } else {
      assert (h + k)[..|run.0|] == h[..|run.0|];
    }
  }

  /** The launch over both domains is the hazard step followed, unless it
      stopped, by the launch over risk alone. */
  lemma LaunchHazardFirst(calcs: Registry, mode: string, sections: seq<string>, raises: Raises)
    ensures var riskOnly := Launch(calcs, mode, sections, raises, ["risk"]);
      Launch(calcs, mode, sections, raises, Domains) ==
        if "HAZARD" !in sections then riskOnly
        else if "hazard" !in calcs || mode !in calcs["hazard"] then ([], Some(NoCalculator("hazard", mode)))
        else
          var run := PhasesRun("hazard", calcs["hazard"][mode], raises, Lifecycle);
          if run.1.Some? then run else (run.0 + riskOnly.0, riskOnly.1)
  {
    UpperDomains();
    assert Domains[0] == "hazard" && Domains[1..] == ["risk"];
  }

  /** A domain's calculator exists for the mode and none of its phases raises. */
  predicate DomainOk(calcs: Registry, mode: string, raises: Raises, d: string) {
    d in calcs && mode in calcs[d] && forall p :: p in Lifecycle ==> !raises(calcs[d][mode], p)
  }

  lemma {:induction false} LaunchOkIff(calcs: Registry, mode: string, sections: seq<string>, raises: Raises,
                                       domains: seq<string>)
    ensures Launch(calcs, mode, sections, raises, domains).1.None? <==>
      forall k :: 0 <= k < |domains| && Upper(domains[k]) in sections ==> DomainOk(calcs, mode, raises, domains[k])
    decreases |domains|
  {
    if domains != [] {
      var d := domains[0];
      LaunchOkIff(calcs, mode, sections, raises, domains[1..]);
      if d in calcs && mode in calcs[d] {
        PhasesRunOk(d, calcs[d][mode], raises, Lifecycle);
      }
      assert forall k :: 1 <= k < |domains| ==> domains[k] == domains[1..][k - 1];
    }
  }

  /** A launch succeeds exactly when every domain in the sections has a
      calculator for the mode and none of its phases raises. */
  lemma LaunchSucceedsIff(calcs: Registry, mode: string, sections: seq<string>, raises: Raises)
    ensures Launch(calcs, mode, sections, raises, Domains).1.None? <==>
      (("HAZARD" in sections ==> DomainOk(calcs, mode, raises, "hazard")) &&
       ("RISK" in sections ==> DomainOk(calcs, mode, raises, "risk")))
  {
    UpperDomains();
    LaunchOkIff(calcs, mode, sections, raises, Domains);
    assert Domains[0] == "hazard" && Domains[1] == "risk";
  }

  lemma {:induction false} PhasesRunOk(domain: string, cls: string, raises: Raises, phases: seq<Phase>)
    ensures PhasesRun(domain, cls, raises, phases).1.None? <==> forall p :: p in phases ==> !raises(cls, p)
  {
    if phases != [] {
      PhasesRunOk(domain, cls, raises, phases[1..]);
    }
  }

  // ------------------------------------------------------------ status

  datatype Status = Pending | Running | Succeeded | Failed

  /** The status column's text. */
  function StatusText(s: Status): (t: string)
    ensures s.Succeeded? <==> t == "succeeded"
    ensures s.Failed? <==> t == "failed"
  {
    match s
    case Pending => "pending"
    case Running => "running"
    case Succeeded => "succeeded"
    case Failed => "failed"
  }

  /** The OqCalculation record a run creates. */
  class Calculation {
    const id: int
    var status: Status

    constructor (id: int)
      ensures this.id == id && status == Pending
    {
      this.id := id;
      status := Pending;
    }
  }

  /** Where results are serialized: always the database, XML on request. */
  function SerializeTargets(outputType: string): (r: Result<seq<string>, string>)
    ensures r.Success? <==> outputType == "db" || outputType == "xml"
    ensures r.Success? ==> |r.value| >= 1 && r.value[0] == "db" && ("xml" in r.value <==> outputType == "xml")
  {
    if outputType != "db" && outputType != "xml" then Failure("output_type must be 'db' or 'xml'")
    else if outputType == "xml" then Success(["db", "xml"])
    else Success(["db"])
  }

  /** run_calculation before the fork: reject an unknown output type, then
      create a new calculation record in the running state (every run gets a
      record of its own). */
  method StartCalculation(id: int, outputType: string) returns (r: Result<(Calculation, seq<string>), string>)
    ensures r.Success? <==> SerializeTargets(outputType).Success?
    ensures r.Success? ==>
      fresh(r.value.0) && r.value.0.id == id && r.value.0.status == Running &&
      r.value.1 == SerializeTargets(outputType).value
  {
    var targets := SerializeTargets(outputType);
    if targets.Failure? {
      return Failure(targets.error);
    }
    var calculation := new Calculation(id);
    calculation.status := Running;
    return Success((calculation, targets.value));
  }

  /** The error to_kvs raises while slurping the proxy's input files, if
      any: none without a base path. */
  function SetupError(params: map<string, string>, base: Option<string>, id: int, env: CalcProxy.Externals,
                      order: seq<string>, data: map<string, string>): Option<CalcProxy.ProxyError>
    requires forall k :: 0 <= k < |order| ==> order[k] in params
  {
    if base.None? then None else CalcProxy.Slurp(params, base.value, id, env, order, params, data).error
  }

  /** to_kvs fails exactly when there is a base path and some *_FILE
      parameter names a file that is missing. */
  lemma SetupFailsIff(params: map<string, string>, base: Option<string>, id: int, env: CalcProxy.Externals,
                      order: seq<string>, data: map<string, string>)
    requires forall k :: 0 <= k < |order| ==> order[k] in params
    ensures SetupError(params, base, id, env, order, data).Some? <==>
      base.Some? && exists k :: 0 <= k < |order| && CalcProxy.CalculationProxy.IsFileKey(order[k]) &&
                                Join(base.value, params[order[k]]) !in env.files
  {
    if base.Some? {
      CalcProxy.SlurpFails(params, base.value, id, env, order, params, data);
    }
  }

  /** The worker process: to_kvs slurps the input files, then the domains are
      launched; it records succeeded, or records failed and passes the error
      on. A missing input file fails the calculation before any phase runs.
      The parameters are visited in the given order (that of
      params.items()). */
  method RunWorker(calculation: Calculation, proxy: CalcProxy.CalculationProxy, store: CalcProxy.KeyValueStore,
                   env: CalcProxy.Externals, order: seq<string>,
                   calcs: Registry, mode: string, sections: seq<string>, raises: Raises)
    returns (events: seq<Event>, err: Option<LaunchError>)
    requires IsOrderOf(order, proxy.params)
    modifies calculation, proxy`params, store
    ensures var setup := SetupError(old(proxy.params), old(proxy.BasePath()), proxy.calculationId, env, order,
                                    old(store.data));
      (setup.Some? ==> events == [] && err == Some(SetupFailed(setup.value))) &&
      (setup.None? ==> (events, err) == Launch(calcs, mode, sections, raises, Domains))
    ensures old(proxy.BasePath()).None? ==> proxy.params == old(proxy.params) && store.data == old(store.data)
    ensures old(proxy.BasePath()).Some? ==>
      var s := CalcProxy.Slurp(old(proxy.params), old(proxy.BasePath()).value, proxy.calculationId, env, order,
                               old(proxy.params), old(store.data));
      proxy.params == s.params && store.data == s.store
    ensures calculation.status == if err.None? then Succeeded else Failed
  {
    var slurped := proxy.SlurpFiles(store, env, order);
    if slurped.Failure? {
      calculation.status := Failed;
      return [], Some(SetupFailed(slurped.error));
    }
    events, err := LaunchCalculation(calcs, mode, sections, raises);
    if err.Some? {
      calculation.status := Failed;
    } else {
      calculation.status := Succeeded;
    }
  }

  /** Once the worker has recorded its outcome, is_job_completed reports
      the calculation as completed. */
  lemma WorkerOutcomeIsCompleted(id: int, s: Status)
    requires s == Succeeded || s == Failed
    ensures CalcProxy.IsJobCompleted(map[id := StatusText(s)], id) == Success(true)
  {
  }

  /** A running or pending calculation is not completed. */
  lemma UnfinishedIsNotCompleted(id: int, s: Status)
    requires s == Pending || s == Running
    ensures CalcProxy.IsJobCompleted(map[id := StatusText(s)], id) == Success(false)
  {
  }
}
