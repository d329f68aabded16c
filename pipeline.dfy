/** The orchestration of `runAnalysis` (cli-standalone/ucof.js:378-551):
    discovery (or its cached artifact), the domain stages in canonical order,
    synthesis with its deterministic fallback, and the report. Engine calls are
    inputs: the discovery reply, a reply per domain and a reply to the synthesis
    prompt, which depends on the collected findings. */
module Pipeline {
  import opened Wrappers
  import opened JsonValues
  import opened Aggregator
  import opened Domains
  import opened Engine
  import opened Report

  /** The `discovery.json` artifact of an earlier run; `parsed` is `None` when
      the file does not hold valid JSON. */
  datatype Cache = NoCacheFile | CacheFile(parsed: Option<Json>)

  /** Why a run ends early: `process.exit(1)` after a failed discovery call, or
      an exception that escapes `runAnalysis`. */
  datatype Abort =
    | DiscoveryFailed    // discovery call threw
    | CorruptCache       // JSON.parse of the cached discovery threw
    | SummaryFailed      // the discovery summary lines threw (a missing `tech_stack`, an unconvertible value)
    | PromptFailed       // building a domain prompt threw (getRelevantPaths, `project_name`)
    | FallbackTallyFailed  // countBySeverity threw on an element in the synthesis catch block
    | SummaryTallyFailed   // the same throw in the closing summary, after the report was written

  datatype Stage = DiscoveryStage | DomainStage(domain: Domain) | SynthesisStage

  datatype Artifact = DiscoveryJson | DomainFindingsJson(domain: Domain) | AllFindingsJson | SynthesisJson | ReportMd

  /** What a run does to the outside world, in order: engine calls and artifact writes. */
  datatype Event = Call(stage: Stage) | Write(artifact: Artifact)

  datatype Summary = Summary(totalFindings: nat, bySeverity: map<string, nat>, healthScore: int)

  /** The synthesis result: the engine's value kept as it is, or the basic
      synthesis built from the raw findings when the synthesis call threw. */
  datatype Synthesis =
    | EngineSynthesis(value: Json)
    | BasicSynthesis(summary: Summary, deduplicatedFindings: seq<Finding>, executionPlan: Plan)

  datatype Run =
    | Aborted(reason: Abort)
    | Completed(discovery: Json, domains: seq<Domain>, allFindings: seq<Json>, synthesis: Synthesis)

  /** The object built in the synthesis `catch` block. */
  function Fallback(fs: seq<Finding>): Synthesis {
    BasicSynthesis(Summary(|fs|, CountBySeverity(fs), HealthScore(fs)), fs, BasicPlan(fs))
  }

  /** A domain reply that `Array.isArray` accepts. */
  predicate IsArrayReply(o: CallOutcome) {
    o.Returned? && o.value.JArr?
  }

  /** What one domain stage pushes onto `allFindings`: the elements of an array
      reply, as they are, nothing otherwise. */
  function Contribution(o: CallOutcome): seq<Json> {
    if IsArrayReply(o) then o.value.items else []
  }

  /** The findings of the domain stages `ds`, concatenated in order. */
  function Collect(ds: seq<Domain>, analyze: Domain -> CallOutcome): seq<Json>
    decreases |ds|
  {
    if ds == [] then []
    else Collect(ds[..|ds| - 1], analyze) + Contribution(analyze(ds[|ds| - 1]))
  }

  /** The collected elements read as findings (`f.id`, `f.severity`, `f.title`)
      by the helpers, through `asFinding`, which is exact for elements whose
      fields are strings. The tally's throws (`TallyThrows`) are checked by the
      callers before the findings are read. */
  function AsFindings(items: seq<Json>, asFinding: Json -> Finding): (fs: seq<Finding>)
    ensures |fs| == |items|
  {
    seq(|items|, i requires 0 <= i < |items| => asFinding(items[i]))
  }

  /** The events of the domain stages `ds`: a call each, and the
      `<domain>-findings.json` write after an array reply. */
  function DomainEvents(ds: seq<Domain>, analyze: Domain -> CallOutcome): (r: seq<Event>)
    ensures Call(DiscoveryStage) !in r
    decreases |ds|
  {
    if ds == [] then []
    else
      var d := ds[|ds| - 1];
      DomainEvents(ds[..|ds| - 1], analyze) + [Call(DomainStage(d))]
        + (if IsArrayReply(analyze(d)) then [Write(DomainFindingsJson(d))] else [])
  }

  /** The events after the domain loop: the `all-findings.json` write, the
      synthesis call, the `synthesis.json` write when the call returned, and the
      report, unless the fallback's tally throws first. */
  function FinalEvents(allFindings: seq<Json>, reply: CallOutcome): (r: seq<Event>)
    ensures Call(DiscoveryStage) !in r
  {
    [Write(AllFindingsJson), Call(SynthesisStage)]
      + (if reply.Returned? then [Write(SynthesisJson)] else [])
      + (if reply.Threw? && TallyThrows(allFindings) then [] else [Write(ReportMd)])
  }

  /** `options.skipDiscovery && fs.existsSync(discoveryFile)`. */
  predicate UsesCache(skipDiscovery: bool, cache: Cache) {
    skipDiscovery && cache.CacheFile?
  }

  /** The discovery data of the run, or the reason the run ends there. */
  function LoadDiscovery(skipDiscovery: bool, cache: Cache, discover: CallOutcome): Result<Json, Abort> {
    if UsesCache(skipDiscovery, cache) then
      if cache.parsed.Some? then Ok(cache.parsed.value) else Err(CorruptCache)
    else if discover.Returned? then Ok(discover.value)
    else Err(DiscoveryFailed)
  }

  /** The events of the discovery phase. */
  function DiscoveryEvents(skipDiscovery: bool, cache: Cache, discover: CallOutcome): seq<Event> {
    if UsesCache(skipDiscovery, cache) then []
    else [Call(DiscoveryStage)] + (if discover.Returned? then [Write(DiscoveryJson)] else [])
  }

  /** `Object.values(techStack).flat().filter(Boolean).join(', ')` throws in
      `join`: some value converts with a throw. A value that is an array is
      flattened into its elements, which throw exactly when the array does. */
  predicate TechStackValuesThrow(techStack: Json) {
    match techStack
    case JObj(fields) => exists k :: k in fields && ToStringThrows(fields[k])
    case JArr(_) => ToStringThrows(techStack)
    case _ => false
  }

  /** The discovery summary lines print without throwing: the data is not null,
      its `tech_stack` is neither null nor undefined (`Object.values`), the
      tech-stack values convert to strings, and so does a truthy
      `file_counts?.total`. */
  predicate SummaryPrints(discovery: Json) {
    && discovery != JNull
    && Prop(discovery, "tech_stack").Some?
    && Prop(discovery, "tech_stack").value != JNull
    && !TechStackValuesThrow(Prop(discovery, "tech_stack").value)
    && !(OptProp(Prop(discovery, "file_counts"), "total").Some?
         && ToStringThrows(OptProp(Prop(discovery, "file_counts"), "total").value))
  }

  /** The domain prompt's template converts `discoveryData.project_name`. */
  predicate ProjectNameThrows(discovery: Json) {
    Prop(discovery, "project_name").Some? && ToStringThrows(Prop(discovery, "project_name").value)
  }

  /** Building a domain prompt throws, for every domain alike. */
  predicate PromptThrows(discovery: Json) {
    PathsThrow(discovery) || ProjectNameThrows(discovery)
  }

  /** `acc[f.severity]` throws on this element: it is null, or its `severity`
      cannot become a property key. */
  predicate TallyThrowsOn(f: Json) {
    f == JNull || (Prop(f, "severity").Some? && ToStringThrows(Prop(f, "severity").value))
  }

  /** `countBySeverity` of these elements throws. */
  predicate TallyThrows(items: seq<Json>) {
    exists k :: 0 <= k < |items| && TallyThrowsOn(items[k])
  }

  /** The closing summary falls back to `countBySeverity(allFindings)`: the
      synthesis has no truthy `summary?.by_severity`. */
  predicate NeedsTally(synthesis: Json) {
    !Truthy(OptProp(Prop(synthesis, "summary"), "by_severity"))
  }

  /** The synthesis phase and the closing summary: the engine's value whatever
      it is, or the basic synthesis when the call threw. A tally that throws
      ends the run, in the catch block or when the summary has to tally the
      findings itself. */
  function Synthesize(allFindings: seq<Json>, outcome: CallOutcome, asFinding: Json -> Finding): Result<Synthesis, Abort> {
    match outcome
    case Threw =>
      if TallyThrows(allFindings) then Err(FallbackTallyFailed)
      else Ok(Fallback(AsFindings(allFindings, asFinding)))
    case Returned(v) =>
      if NeedsTally(v) && TallyThrows(allFindings) then Err(SummaryTallyFailed)
      else Ok(EngineSynthesis(v))
  }

  /** The `for` loop over the selected domains. Each stage first builds its
      prompt, outside the `try` block, so a throwing `getRelevantPaths` or an
      unconvertible `project_name` ends the whole run (`aborted`); a thrown call or a non-array reply only skips that
      domain, and the loop goes on with the next. */
  method RunDomainStages(domains: seq<Domain>, discovery: Json, analyze: Domain -> CallOutcome)
    returns (aborted: bool, allFindings: seq<Json>, events: seq<Event>)
    ensures aborted <==> domains != [] && PromptThrows(discovery)
    ensures aborted ==> events == []
    ensures !aborted ==> allFindings == Collect(domains, analyze) && events == DomainEvents(domains, analyze)
  {
    aborted, allFindings, events := false, [], [];
    var i := 0;
    while i < |domains|
      invariant 0 <= i <= |domains|
      invariant i > 0 ==> !PromptThrows(discovery)
      invariant allFindings == Collect(domains[..i], analyze)
      invariant events == DomainEvents(domains[..i], analyze)
    {
      var domain := domains[i];
      if GetRelevantPaths(domain, discovery).None? || ProjectNameThrows(discovery) {
        aborted, events := true, [];
        return;
      }
      events := events + [Call(DomainStage(domain))];
      var outcome := analyze(domain);
      if outcome.Returned? && outcome.value.JArr? {
        allFindings := allFindings + outcome.value.items;
        events := events + [Write(DomainFindingsJson(domain))];
      }
      assert domains[..i + 1][..i] == domains[..i];
      i := i + 1;
    }
    assert domains[..i] == domains;
  }

  /** The run gets past discovery and the domain stages to the synthesis call. */
  predicate ReachesSynthesis(loaded: Result<Json, Abort>) {
    loaded.Ok? && SummaryPrints(loaded.value) && !PromptThrows(loaded.value)
  }

  /** Phase 1: the cached discovery data, or a discovery call whose result is
      written to `discovery.json`. */
  method RunDiscovery(skipDiscovery: bool, cache: Cache, discover: CallOutcome)
    returns (loaded: Result<Json, Abort>, trace: seq<Event>)
    ensures loaded == LoadDiscovery(skipDiscovery, cache, discover)
    ensures trace == DiscoveryEvents(skipDiscovery, cache, discover)
  {
    trace := [];
    if UsesCache(skipDiscovery, cache) {
      loaded := if cache.parsed.Some? then Ok(cache.parsed.value) else Err(CorruptCache);
    } else {
      trace := trace + [Call(DiscoveryStage)];
      if discover.Threw? {
        loaded := Err(DiscoveryFailed);
      } else {
        loaded := Ok(discover.value);
        trace := trace + [Write(DiscoveryJson)];
      }
    }
  }

  /** Phases 3 and 4 and the closing summary: write `all-findings.json`, call
      the synthesis stage, fall back on a throw, write the report. */
  method RunSynthesis(
    discovery: Json,
    domains: seq<Domain>,
    allFindings: seq<Json>,
    asFinding: Json -> Finding,
    synthesize: seq<Json> -> CallOutcome)
    returns (run: Run, events: seq<Event>)
    ensures events == FinalEvents(allFindings, synthesize(allFindings))
    ensures var outcome := Synthesize(allFindings, synthesize(allFindings), asFinding);
      run == if outcome.Ok? then Completed(discovery, domains, allFindings, outcome.value) else Aborted(outcome.error)
  {
    events := [Write(AllFindingsJson), Call(SynthesisStage)];
    var reply := synthesize(allFindings);
    if reply.Returned? {
      events := events + [Write(SynthesisJson)];
    }
    match Synthesize(allFindings, reply, asFinding)
    case Ok(synthesis) =>
      events := events + [Write(ReportMd)];
      run := Completed(discovery, domains, allFindings, synthesis);
    case Err(reason) =>
      if reason == SummaryTallyFailed {
        events := events + [Write(ReportMd)];
      }
      run := Aborted(reason);
  }

  method RunAnalysis(
    skipDiscovery: bool,
    cache: Cache,
    discover: CallOutcome,
    analyze: Domain -> CallOutcome,
    asFinding: Json -> Finding,
    synthesize: seq<Json> -> CallOutcome)
    returns (run: Run, trace: seq<Event>)
    // discovery: the cache is reused without an engine call; a failure ends the run
    ensures !UsesCache(skipDiscovery, cache) ==> |trace| > 0 && trace[0] == Call(DiscoveryStage)
    ensures UsesCache(skipDiscovery, cache) ==> Call(DiscoveryStage) !in trace
    ensures LoadDiscovery(skipDiscovery, cache, discover).Err? ==>
      run == Aborted(LoadDiscovery(skipDiscovery, cache, discover).error)
    ensures !ReachesSynthesis(LoadDiscovery(skipDiscovery, cache, discover)) ==>
      run.Aborted? && trace == DiscoveryEvents(skipDiscovery, cache, discover)
    ensures !ReachesSynthesis(LoadDiscovery(skipDiscovery, cache, discover)) && LoadDiscovery(skipDiscovery, cache, discover).Ok? ==>
      run.reason == (if SummaryPrints(LoadDiscovery(skipDiscovery, cache, discover).value) then PromptFailed else SummaryFailed)
    // every selected domain is called, in order; array replies are collected;
    // the synthesis falls back exactly on a throw and any returned value is kept,
    // unless tallying the findings throws
    ensures ReachesSynthesis(LoadDiscovery(skipDiscovery, cache, discover)) ==>
      var discovery := LoadDiscovery(skipDiscovery, cache, discover).value;
      var domains := SelectDomains(discovery);
      var allFindings := Collect(domains, analyze);
      var outcome := Synthesize(allFindings, synthesize(allFindings), asFinding);
      && trace == DiscoveryEvents(skipDiscovery, cache, discover) + DomainEvents(domains, analyze)
           + FinalEvents(allFindings, synthesize(allFindings))
      && run == (if outcome.Ok? then Completed(discovery, domains, allFindings, outcome.value) else Aborted(outcome.error))
  {
    var loaded;
    loaded, trace := RunDiscovery(skipDiscovery, cache, discover);
    if loaded.Err? {
      run := Aborted(loaded.error);
      return;
    }
    var discovery := loaded.value;

    // the discovery summary lines: Object.values(tech_stack), join, file_counts.total
    if !SummaryPrints(discovery) {
      run := Aborted(SummaryFailed);
      return;
    }

    var domains := SelectDomains(discovery);
    SelectionNeverEmpty(discovery);
    var aborted, allFindings, events := RunDomainStages(domains, discovery, analyze);
    if aborted {
      run := Aborted(PromptFailed);
      return;
    }
    var finalEvents;
    run, finalEvents := RunSynthesis(discovery, domains, allFindings, asFinding, synthesize);
    trace := trace + events + finalEvents;
  }

  // ---------------------------------------------------------------------------
  // Properties of the domain phase
  // ---------------------------------------------------------------------------

  /** Collecting over two runs of stages is collecting over each, in order. */
  lemma {:induction false} CollectAppend(xs: seq<Domain>, ys: seq<Domain>, analyze: Domain -> CallOutcome)
    ensures Collect(xs + ys, analyze) == Collect(xs, analyze) + Collect(ys, analyze)
    decreases |ys|
  {
    if ys == [] {
      assert xs + ys == xs;
    } else {
      var n, zs := |ys| - 1, xs + ys;
      assert zs[..|zs| - 1] == xs + ys[..n];
      assert zs[|zs| - 1] == ys[n];
      var last := Contribution(analyze(ys[n]));
      assert Collect(zs, analyze) == Collect(xs + ys[..n], analyze) + last;
      CollectAppend(xs, ys[..n], analyze);
      assert Collect(ys, analyze) == Collect(ys[..n], analyze) + last;
    }
  }

  /** The domains whose reply was an array, in order. */
  function Succeeded(ds: seq<Domain>, analyze: Domain -> CallOutcome): (r: seq<Domain>)
    ensures forall d :: d in r <==> d in ds && IsArrayReply(analyze(d))
  {
    if ds == [] then []
    else if IsArrayReply(analyze(ds[0])) then [ds[0]] + Succeeded(ds[1..], analyze)
    else Succeeded(ds[1..], analyze)
  }

  /** Failed stages (a throw or a non-array reply) contribute nothing: the
      collected findings are those of the succeeding domains alone, so a run
      with one failing domain reports exactly the others' findings. */
  lemma {:induction false} FailedDomainsContributeNothing(ds: seq<Domain>, analyze: Domain -> CallOutcome)
    ensures Collect(ds, analyze) == Collect(Succeeded(ds, analyze), analyze)
  {
    if ds != [] {
      var d, rest := ds[0], ds[1..];
      var succeededRest := Succeeded(rest, analyze);
      assert ds == [d] + rest;
      CollectSingle(d, analyze);
      CollectAppend([d], rest, analyze);
      FailedDomainsContributeNothing(rest, analyze);
      if IsArrayReply(analyze(d)) {
        assert Succeeded(ds, analyze) == [d] + succeededRest;
        CollectAppend([d], succeededRest, analyze);
      } else {
        assert Succeeded(ds, analyze) == succeededRest;
        assert Collect([d], analyze) == [];
      }
    }
  }

  lemma CollectSingle(d: Domain, analyze: Domain -> CallOutcome)
    ensures Collect([d], analyze) == Contribution(analyze(d))
  {
    assert [d][..0] == [];
  }

  /** The tally of two runs of elements throws exactly when one of them does. */
  lemma TallyThrowsAppend(xs: seq<Json>, ys: seq<Json>)
    ensures TallyThrows(xs + ys) <==> TallyThrows(xs) || TallyThrows(ys)
  {
    var zs := xs + ys;
    if TallyThrows(xs) {
      var k :| 0 <= k < |xs| && TallyThrowsOn(xs[k]);
      assert zs[k] == xs[k];
    }
    if TallyThrows(ys) {
      var k :| 0 <= k < |ys| && TallyThrowsOn(ys[k]);
      assert zs[|xs| + k] == ys[k];
    }
    if TallyThrows(zs) {
      var k :| 0 <= k < |zs| && TallyThrowsOn(zs[k]);
      if k < |xs| {
        assert zs[k] == xs[k];
      } else {
        assert zs[k] == ys[k - |xs|];
      }
    }
  }

  /** The collected findings hold an element the tally throws on (a `null`, an
      unconvertible `severity`) exactly when some selected domain replied with
      an array holding one. */
  lemma {:induction false} TallyThrowCollected(ds: seq<Domain>, analyze: Domain -> CallOutcome)
    ensures TallyThrows(Collect(ds, analyze)) <==>
      exists d :: d in ds && IsArrayReply(analyze(d)) && TallyThrows(analyze(d).value.items)
    decreases |ds|
  {
    if ds != [] {
      var n := |ds| - 1;
      TallyThrowCollected(ds[..n], analyze);
      TallyThrowsAppend(Collect(ds[..n], analyze), Contribution(analyze(ds[n])));
      assert ds == ds[..n] + [ds[n]];
      assert forall d :: d in ds <==> d in ds[..n] || d == ds[n];
    }
  }

  /** Every domain that returned an array leaves its `<domain>-findings.json`
      behind, and no other domain does. */
  lemma {:induction false} DomainArtifacts(ds: seq<Domain>, analyze: Domain -> CallOutcome, d: Domain)
    ensures Write(DomainFindingsJson(d)) in DomainEvents(ds, analyze) <==> d in ds && IsArrayReply(analyze(d))
    ensures Call(DomainStage(d)) in DomainEvents(ds, analyze) <==> d in ds
  {
    if ds != [] {
      var n := |ds| - 1;
      DomainArtifacts(ds[..n], analyze, d);
      assert ds == ds[..n] + [ds[n]];
      assert d in ds <==> d in ds[..n] || d == ds[n];
    }
  }

  // ---------------------------------------------------------------------------
  // Properties of the fallback synthesis
  // ---------------------------------------------------------------------------

  /** A run that reaches synthesis ends with a TypeError exactly when the
      findings hold an element the tally throws on and something tallies them:
      the catch block after a thrown call, before `report.md` is written, or the
      closing summary when the engine's synthesis has no `by_severity`, after
      the report is written. Otherwise the synthesis always succeeds. */
  lemma TallyFailure(allFindings: seq<Json>, outcome: CallOutcome, asFinding: Json -> Finding)
    ensures Synthesize(allFindings, outcome, asFinding).Err? <==>
      TallyThrows(allFindings) && (outcome.Threw? || NeedsTally(outcome.value))
    ensures Synthesize(allFindings, outcome, asFinding) == Err(FallbackTallyFailed) <==>
      Write(ReportMd) !in FinalEvents(allFindings, outcome)
    ensures outcome.Threw? && !TallyThrows(allFindings) ==>
      Synthesize(allFindings, outcome, asFinding) == Ok(Fallback(AsFindings(allFindings, asFinding)))
    ensures outcome.Returned? ==>
      Synthesize(allFindings, outcome, asFinding) == Ok(EngineSynthesis(outcome.value))
        || Synthesize(allFindings, outcome, asFinding) == Err(SummaryTallyFailed)
  {
  }

  /** A severity whose own `toString` member is not a function ends the run in
      the catch block, as a `null` element does. */
  lemma UnconvertibleSeverityAborts(asFinding: Json -> Finding)
    ensures var f := JObj(map["id" := JStr("A"), "severity" := JObj(map["toString" := JNum(0.0)])]);
      Synthesize([f], Threw, asFinding) == Err(FallbackTallyFailed)
        && Write(ReportMd) !in FinalEvents([f], Threw)
  {
    var f := JObj(map["id" := JStr("A"), "severity" := JObj(map["toString" := JNum(0.0)])]);
    assert TallyThrowsOn([f][0]);
  }

  /** When no domain ever replies with an array holding an element the tally
      throws on, the synthesis phase of a run always succeeds, whatever the
      synthesis call does. */
  lemma TallySafeRepliesComplete(discovery: Json, analyze: Domain -> CallOutcome, outcome: CallOutcome, asFinding: Json -> Finding)
    requires forall d :: IsArrayReply(analyze(d)) ==> !TallyThrows(analyze(d).value.items)
    ensures Synthesize(Collect(SelectDomains(discovery), analyze), outcome, asFinding).Ok?
  {
    TallyThrowCollected(SelectDomains(discovery), analyze);
  }

  // ---------------------------------------------------------------------------
  // Properties of the discovery summary and the domain prompt
  // ---------------------------------------------------------------------------

  /** A tech-stack list holding an object with its own `toString` member makes
      the discovery summary throw, so the run never reaches the domain stages. */
  lemma UnconvertibleTechStackAborts()
    ensures var d := JObj(map["tech_stack" := JObj(map["frontend" := JArr([JObj(map["toString" := JNum(0.0)])])])]);
      !SummaryPrints(d) && !ReachesSynthesis(Ok(d))
  {
    var list := JArr([JObj(map["toString" := JNum(0.0)])]);
    assert ToStringThrows(list.items[0]);
    var ts := JObj(map["frontend" := list]);
    assert ts.fields["frontend"] == list;
  }

  /** A `project_name` that cannot be converted fails the first domain prompt,
      which is always built, since security is always selected. */
  lemma UnconvertibleProjectNameAborts(discovery: Json)
    requires SummaryPrints(discovery)
    requires Prop(discovery, "project_name") == Some(JObj(map["toString" := JNum(0.0)]))
    ensures !ReachesSynthesis(Ok(discovery))
    ensures SelectDomains(discovery) != [] && PromptThrows(discovery)
  {
    SelectionNeverEmpty(discovery);
  }

  /** The fallback synthesis is self-consistent: the tally adds up to the
      total, the score lies in [0, 100] and agrees with the tally, each phase is
      as long as its severity's count, and every id of the plan resolves to a
      deduplicated finding carrying it. */
  lemma FallbackConsistent(fs: seq<Finding>)
    ensures var s := Fallback(fs);
      && s.summary.totalFindings == |s.deduplicatedFindings| == |fs|
      && SumValues(s.summary.bySeverity) == s.summary.totalFindings
      && 0 <= s.summary.healthScore <= 100
    ensures var s := Fallback(fs);
      var m := s.summary.bySeverity;
      var p := 20 * Count(m, "critical") + 10 * Count(m, "high") + 3 * Count(m, "medium") + Count(m, "low");
      && s.summary.healthScore == (if p < 100 then 100 - p else 0)
      && |s.executionPlan.phase0Immediate| == Count(m, "critical")
      && |s.executionPlan.phase1Foundation| == Count(m, "high")
      && |s.executionPlan.phase2Stability| == Count(m, "medium")
      && |s.executionPlan.phase3Hardening| == Count(m, "low")
    ensures var p := Fallback(fs).executionPlan;
      forall id :: (id in p.phase0Immediate || id in p.phase1Foundation || id in p.phase2Stability
                    || id in p.phase3Hardening) ==> Lookup(Some(fs), id).Some?
  {
    CountBySeverityTotal(fs);
    HealthScoreFromCounts(fs);
    BasicPlanMatchesCounts(fs);
  }

  /** With every domain failing the run still completes its summary: no
      findings, a score of 100, an empty tally (absent severities are not
      zero-filled) and four empty phases. */
  lemma EmptyFallback()
    ensures Fallback([]) == BasicSynthesis(Summary(0, map[], 100), [], Plan([], [], [], []))
  {
  }
}
