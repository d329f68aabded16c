/** Domain selection and path routing (cli-standalone/ucof.js:279-292, 426-439):
    which domain stages run for a project, in which order, and which paths each
    stage is pointed at. */
module Domains {
  import opened Wrappers
  import opened JsonValues

  /** The eight analysis domains. */
  datatype Domain = Security | External | Data | Backend | Frontend | Infrastructure | Performance | Quality

  /** `domainOrder`: the critical-priority domains first, then the standard ones. */
  const CanonicalOrder: seq<Domain> :=
    [Security, External, Data, Backend, Frontend, Infrastructure, Performance, Quality]

  /** The position of a domain in the canonical order. */
  function Rank(d: Domain): (r: nat)
    ensures r < |CanonicalOrder| && CanonicalOrder[r] == d
  {
    match d
    case Security => 0
    case External => 1
    case Data => 2
    case Backend => 3
    case Frontend => 4
    case Infrastructure => 5
    case Performance => 6
    case Quality => 7
  }

  /** The domains appear in strictly increasing canonical position: an
      order-preserving subsequence of `CanonicalOrder` without repeats. */
  predicate InCanonicalOrder(ds: seq<Domain>) {
    forall i, j :: 0 <= i < j < |ds| ==> Rank(ds[i]) < Rank(ds[j])
  }

  /** `discoveryData.tech_stack` (the discovery data is never null here: the
      orchestrator has already read `tech_stack` before selecting domains). */
  function TechStack(discovery: Json): Option<Json> {
    Prop(discovery, "tech_stack")
  }

  /** `discoveryData.tech_stack?.frontend?.length` is truthy. */
  predicate FrontendDetected(discovery: Json) {
    HasLength(OptProp(TechStack(discovery), "frontend"))
  }

  /** `tech_stack?.ai_services?.length` or `tech_stack?.queue` is truthy. */
  predicate ExternalDetected(discovery: Json) {
    HasLength(OptProp(TechStack(discovery), "ai_services")) || Truthy(OptProp(TechStack(discovery), "queue"))
  }

  /** The filter predicate of `relevantDomains`, given the two detections. */
  predicate Relevant(d: Domain, frontend: bool, external: bool) {
    match d
    case Frontend => frontend
    case External => external
    case _ => true
  }

  /** `ds.filter(domain => Relevant(domain, ...))`. */
  function KeepRelevant(ds: seq<Domain>, frontend: bool, external: bool): (r: seq<Domain>)
    ensures forall d :: d in r <==> d in ds && Relevant(d, frontend, external)
  {
    if ds == [] then []
    else if Relevant(ds[0], frontend, external) then [ds[0]] + KeepRelevant(ds[1..], frontend, external)
    else KeepRelevant(ds[1..], frontend, external)
  }

  /** Filtering keeps the order of what it keeps. */
  lemma {:induction false} KeepRelevantOrdered(ds: seq<Domain>, frontend: bool, external: bool)
    requires InCanonicalOrder(ds)
    ensures InCanonicalOrder(KeepRelevant(ds, frontend, external))
  {
    if ds != [] {
      var rest := KeepRelevant(ds[1..], frontend, external);
      assert InCanonicalOrder(ds[1..]) by {
        forall i, j | 0 <= i < j < |ds[1..]| ensures Rank(ds[1..][i]) < Rank(ds[1..][j]) {
          assert ds[1..][i] == ds[i + 1] && ds[1..][j] == ds[j + 1];
        }
      }
      KeepRelevantOrdered(ds[1..], frontend, external);
      if Relevant(ds[0], frontend, external) {
        var r := [ds[0]] + rest;
        forall i, j | 0 <= i < j < |r| ensures Rank(r[i]) < Rank(r[j]) {
          if i == 0 {
            assert r[j] == rest[j - 1] && rest[j - 1] in rest;
            var k :| 0 <= k < |ds[1..]| && ds[1..][k] == r[j];
            assert ds[k + 1] == r[j];
          } else {
            assert r[i] == rest[i - 1] && r[j] == rest[j - 1];
          }
        }
      }
    }
  }

  /** `relevantDomains`: the canonical order filtered by what discovery detected. */
  function SelectDomains(discovery: Json): seq<Domain> {
    KeepRelevant(CanonicalOrder, FrontendDetected(discovery), ExternalDetected(discovery))
  }

  /** Filtering the canonical order: `frontend` is kept exactly when it was
      detected, `external` likewise, the other six always, in canonical order. */
  lemma KeepCanonical(frontend: bool, external: bool)
    ensures InCanonicalOrder(KeepRelevant(CanonicalOrder, frontend, external))
    ensures Frontend in KeepRelevant(CanonicalOrder, frontend, external) <==> frontend
    ensures External in KeepRelevant(CanonicalOrder, frontend, external) <==> external
    ensures forall d :: d != Frontend && d != External ==> d in KeepRelevant(CanonicalOrder, frontend, external)
  {
    CanonicalOrderComplete();
    KeepRelevantOrdered(CanonicalOrder, frontend, external);
  }

  /** The selected domains keep the canonical order; `frontend` is kept exactly
      when a frontend stack was detected, `external` exactly when AI services or
      a queue were detected, and the other six are always kept. */
  lemma SelectDomainsSpec(discovery: Json)
    ensures InCanonicalOrder(SelectDomains(discovery))
    ensures Frontend in SelectDomains(discovery) <==> FrontendDetected(discovery)
    ensures External in SelectDomains(discovery) <==> ExternalDetected(discovery)
    ensures forall d :: d != Frontend && d != External ==> d in SelectDomains(discovery)
  {
    KeepCanonical(FrontendDetected(discovery), ExternalDetected(discovery));
  }

  /** The security domain is always selected, so the loop runs at least once. */
  lemma SelectionNeverEmpty(discovery: Json)
    ensures Security in SelectDomains(discovery)
  {
    assert Security in CanonicalOrder;
  }

  lemma CanonicalOrderComplete()
    ensures InCanonicalOrder(CanonicalOrder)
    ensures forall d :: d in CanonicalOrder
  {
    forall d ensures d in CanonicalOrder { assert CanonicalOrder[Rank(d)] == d; }
    assert forall i :: 0 <= i < |CanonicalOrder| ==> Rank(CanonicalOrder[i]) == i;
  }

  /** A list in canonical order is determined by its members. */
  lemma {:induction false} CanonicalOrderUnique(a: seq<Domain>, b: seq<Domain>)
    requires InCanonicalOrder(a) && InCanonicalOrder(b)
    requires forall d :: d in a <==> d in b
    ensures a == b
  {
    assert a != [] ==> a[0] in a && a[0] in b;
    assert b != [] ==> b[0] in b && b[0] in a;
    if a != [] && b != [] {
      forall d ensures d in a[1..] <==> d in b[1..] {
        if d in a[1..] {
          var i :| 1 <= i < |a| && a[i] == d;
          assert d in a;
          var k :| 0 <= k < |b| && b[k] == d;
          assert k != 0 && b[1..][k - 1] == d;
        }
        if d in b[1..] {
          var i :| 1 <= i < |b| && b[i] == d;
          assert d in b;
          var k :| 0 <= k < |a| && a[k] == d;
          assert k != 0 && a[1..][k - 1] == d;
        }
      }
      CanonicalOrderUnique(a[1..], b[1..]);
    }
  }

  /** The six domains that run whatever discovery reports. */
  const AlwaysSelected: seq<Domain> := [Security, Data, Backend, Infrastructure, Performance, Quality]

  lemma AlwaysSelectedOrdered()
    ensures InCanonicalOrder(AlwaysSelected)
    ensures forall d :: d in AlwaysSelected <==> d != Frontend && d != External
  {
  }

  lemma KeepCanonicalWithout(frontend: bool, external: bool)
    requires !frontend && !external
    ensures KeepRelevant(CanonicalOrder, frontend, external) == AlwaysSelected
  {
    KeepCanonical(frontend, external);
    AlwaysSelectedOrdered();
    CanonicalOrderUnique(KeepRelevant(CanonicalOrder, frontend, external), AlwaysSelected);
  }

  /** With neither a frontend stack nor an external integration detected, the
      six other domains run, in canonical order. */
  lemma SelectWithoutOptional(discovery: Json)
    requires !FrontendDetected(discovery) && !ExternalDetected(discovery)
    ensures SelectDomains(discovery) == [Security, Data, Backend, Infrastructure, Performance, Quality]
  {
    KeepCanonicalWithout(FrontendDetected(discovery), ExternalDetected(discovery));
  }

  /** Discovery reporting an empty frontend stack, no queue and no AI services
      runs the six other domains. */
  lemma NoFrontendNoExternal(discovery: Json)
    requires OptProp(TechStack(discovery), "frontend") == Some(JArr([]))
    requires OptProp(TechStack(discovery), "queue") == Some(JNull)
    requires OptProp(TechStack(discovery), "ai_services") == Some(JArr([]))
    ensures SelectDomains(discovery) == [Security, Data, Backend, Infrastructure, Performance, Quality]
  {
    HasLengthOfArray([]);
    SelectWithoutOptional(discovery);
  }

  /** External integrations detected means the external domain runs. */
  lemma ExternalSelected(discovery: Json)
    requires ExternalDetected(discovery)
    ensures External in SelectDomains(discovery)
  {
    SelectDomainsSpec(discovery);
  }

  /** A queue given as an empty array is truthy in JavaScript, so the external
      domain is still selected even with no AI services. */
  lemma EmptyQueueListKeepsExternal(discovery: Json)
    requires OptProp(TechStack(discovery), "queue") == Some(JArr([]))
    requires OptProp(TechStack(discovery), "ai_services") == Some(JArr([]))
    ensures External in SelectDomains(discovery)
  {
    ExternalSelected(discovery);
  }

  // ---------------------------------------------------------------------------
  // getRelevantPaths
  // ---------------------------------------------------------------------------

  /** `discoveryData.structure?.<field> || []`: the path list discovery declared. */
  function DeclaredPaths(discovery: Json, field: string): Json {
    Or(OptProp(Prop(discovery, "structure"), field), JArr([]))
  }

  /** The array spread `[...v]`: the elements of an array, the characters of a
      string; any other value is not iterable and the spread throws. */
  function Spread(v: Json): Option<seq<Json>> {
    match v
    case JArr(items) => Some(items)
    case JStr(s) => Some(seq(|s|, i requires 0 <= i < |s| => JStr([s[i]])))
    case _ => None
  }

  /** When `getRelevantPaths` throws a TypeError: reading `structure` of a null
      discovery value, or spreading a truthy `backend_paths` that is neither an
      array nor a string. Every entry of the lookup table is evaluated, so this
      does not depend on the domain asked for. */
  predicate PathsThrow(discovery: Json) {
    || discovery == JNull
    || var b := OptProp(Prop(discovery, "structure"), "backend_paths");
       Truthy(b) && !b.value.JArr? && !b.value.JStr?
  }

  /** `getRelevantPaths`; `None` is a thrown TypeError. */
  function GetRelevantPaths(domain: Domain, discovery: Json): (r: Option<Json>)
    ensures r.None? <==> PathsThrow(discovery)
    ensures r.Some? && (domain == Security || domain == Performance || domain == Quality) ==>
      r.value == JArr([JStr("**/*")])
    ensures r.Some? && domain == External ==>
      && Spread(DeclaredPaths(discovery, "backend_paths")).Some?
      && r.value == JArr(Spread(DeclaredPaths(discovery, "backend_paths")).value)
    ensures r.Some? && domain == Frontend ==> r.value == DeclaredPaths(discovery, "frontend_paths")
    ensures r.Some? && domain == Backend ==> r.value == DeclaredPaths(discovery, "backend_paths")
    ensures r.Some? && domain == Data ==> r.value == DeclaredPaths(discovery, "data_paths")
    ensures r.Some? && domain == Infrastructure ==> r.value == DeclaredPaths(discovery, "config_files")
  {
    if discovery == JNull then None
    else
      var structure := Prop(discovery, "structure");
      var frontend := Or(OptProp(structure, "frontend_paths"), JArr([]));
      var backend := Or(OptProp(structure, "backend_paths"), JArr([]));
      var data := Or(OptProp(structure, "data_paths"), JArr([]));
      var config := Or(OptProp(structure, "config_files"), JArr([]));
      match Spread(backend)
      case None => None
      case Some(external) =>
        var paths := match domain
          case Frontend => frontend
          case Backend => backend
          case Data => data
          case External => JArr(external)
          case Security => JArr([JStr("**/*")])
          case Infrastructure => config
          case Performance => JArr([JStr("**/*")])
          case Quality => JArr([JStr("**/*")]);
        // `pathMapping[domain] || []`: every entry is already truthy
        Some(Or(Some(paths), JArr([])))
  }

  /** With path lists that are arrays or absent, every domain gets an array of
      paths and the lookup never throws. */
  lemma RelevantPathsAreLists(domain: Domain, discovery: Json)
    requires discovery != JNull
    requires forall field :: field in {"frontend_paths", "backend_paths", "data_paths", "config_files"} ==>
      DeclaredPaths(discovery, field).JArr?
    ensures GetRelevantPaths(domain, discovery).Some? && GetRelevantPaths(domain, discovery).value.JArr?
  {
    assert DeclaredPaths(discovery, "backend_paths").JArr?;
    assert DeclaredPaths(discovery, "frontend_paths").JArr?;
    assert DeclaredPaths(discovery, "data_paths").JArr?;
    assert DeclaredPaths(discovery, "config_files").JArr?;
  }

  /** A truthy non-list `backend_paths` makes the lookup throw for every domain,
      the broad-access ones included. */
  lemma NumericBackendPathsThrow(domain: Domain)
    ensures GetRelevantPaths(domain, JObj(map["structure" := JObj(map["backend_paths" := JNum(1.0)])])).None?
  {
  }
}
