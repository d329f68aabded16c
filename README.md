# UCOF orchestration core, modelled in Dafny

The Universal Codebase Optimization Framework (UCOF) is a command-line
orchestrator that audits a code base with a language-model engine in four
phases:

1. **Discovery.** One engine call describes the project. An earlier
   `discovery.json` is reused instead when `--skip-discovery` is given.
2. **Domain analysis.** Up to eight domain stages run one after another,
   each with its own prompt and engine call. The domains are security,
   external, data, backend, frontend, infrastructure, performance and
   quality. Frontend and external run only when discovery detected a
   frontend stack, or AI services or a queue.
3. **Synthesis.** One engine call merges the findings. When that call
   throws, a basic synthesis is computed locally from the raw findings:
   - a tally by severity;
   - a health score of 100 minus weighted penalties, floored at 0;
   - a four-phase plan of finding ids grouped by severity.
4. **Report.** A Markdown report renders the synthesis. Each plan phase is
   rendered by `formatPhaseFindings`.

This project models that core, from `cli-standalone/ucof.js`:

- **Aggregator** (`aggregator.dfy`) covers `countBySeverity`,
  `calculateHealthScore` and `generateBasicPlan`. Each is a fold over the
  findings, proved against a reference count: the multiset of severities.
- **Domains** (`domains.dfy`) covers the canonical domain order, the
  relevance filter and `getRelevantPaths`. It includes the TypeError that
  the spread of a non-iterable `backend_paths` raises.
- **Engine** (`engine.dfy`) covers how an engine reply becomes a value. The
  greedy regular expression `\{[\s\S]*\}|\[[\s\S]*\]` picks a span.
  `JSON.parse` is given as a partial function. A reply with no match is
  returned as the raw string.
- **Report** (`report.dfy`) covers `formatPhaseFindings`.
- **Pipeline** (`pipeline.dfy`) covers `runAnalysis` as a method. Engine
  calls are inputs (`CallOutcome` = threw or returned a value). The method
  yields the outcome of the run and a trace of engine calls and artifact
  writes. The domain loop is a `while` loop proved against the functions
  `Collect` and `DomainEvents`.
- **JsonValues** (`json.dfy`) and **Wrappers** (`wrappers.dfy`) hold the JSON
  value type and the JavaScript semantics the decisions depend on:
  truthiness, `.`, `?.`, `||` and `length`.

Points where the code's behaviour is easy to misread; the model follows the
code:

- `countBySeverity` does not zero-fill the four severities. It also counts
  any other severity string, `undefined` included.
- The span taken from an engine reply is not a balanced JSON value. It runs
  from the first opener that has a closer of its kind somewhere after it to
  the last such closer, so two objects in one reply give one unparsable
  span.
- The external domain is kept when `tech_stack.queue` is any truthy value,
  an empty array included.
- The fallback synthesis is used only when the synthesis call throws. A
  returned value of any shape, a raw string included, is kept as the
  synthesis.
- Domain stages run strictly in sequence, in the canonical order.
- Several conditions end the whole run rather than one stage:
  - a `getRelevantPaths` TypeError, because prompts are built outside the
    stage's `try`;
  - an unparsable cached discovery;
  - a discovery summary line that throws. A missing or null `tech_stack`
    fails `Object.values`; a tech-stack value or a `file_counts.total` that
    cannot be converted to a string fails `join` or the template;
  - a `project_name` that cannot be converted to a string, because the domain
    prompt's template is built outside the stage's `try`;
  - an element of a domain's array reply that `countBySeverity` throws on,
    once something tallies the findings. The element is `null`, or its
    `severity` cannot become a property key. This happens in the synthesis
    catch block, before `report.md` is written. It also happens in the
    closing summary when the engine's synthesis has no truthy
    `summary.by_severity`, after the report is written.
- A JSON value cannot be converted to a string when it is an object with its
  own `toString` member, or an array holding such a value at any depth. That
  member is not a function, and the inherited `valueOf` returns the object
  itself, so JavaScript throws a TypeError.

## Model

| member | source | states |
|---|---|---|
| Aggregator.CountBySeverityCorrect | cli-standalone/ucof.js:557-562 | The tally has a key exactly for each severity that occurs, and each value is the number of findings with that severity. Unknown severities are counted and absent ones are not zero-filled. |
| Aggregator.CountBySeverityTotal | cli-standalone/ucof.js:557-562 | The tally's values add up to the number of findings, so no finding is dropped. |
| Aggregator.HealthScore | cli-standalone/ucof.js:564-568 | The score lies in [0, 100], and is 100 exactly when the total penalty is 0. |
| Aggregator.PenaltyFromCounts | cli-standalone/ucof.js:565-566 | The penalty is 20·critical + 10·high + 3·medium + 1·low. Other severities weigh 0. |
| Aggregator.HealthScoreFromCounts | cli-standalone/ucof.js:564-568 | The score is max(0, 100 − weighted sum), read off the severity tally. |
| Aggregator.HealthScoreAppendNonIncreasing | cli-standalone/ucof.js:564-568 | Adding findings never raises the score. |
| Aggregator.HealthScorePerfect | cli-standalone/ucof.js:564-568 | The score is 100 iff no finding has one of the four known severities. |
| Aggregator.HealthScoreExample | cli-standalone/ucof.js:557-568 | Two critical findings and one low finding score 59 and tally {critical: 2, low: 1}. |
| Aggregator.IdsWithSeverity | cli-standalone/ucof.js:573 | A phase has no more ids than there are findings. It holds the id of every finding of its severity, and each id comes from a finding of that severity. |
| Aggregator.IdsWithSeverityAppend | cli-standalone/ucof.js:573 | Selecting ids distributes over concatenation, so ids keep the order of their findings. |
| Aggregator.IdsWithSeverityLength | cli-standalone/ucof.js:570-585 | A phase holds exactly one id per finding of its severity. |
| Aggregator.BasicPlanSize | cli-standalone/ucof.js:570-585 | The four phases together hold at most one id per finding. They hold exactly one per finding iff every severity is one of the known four. |
| Aggregator.BasicPlanMatchesCounts | cli-standalone/ucof.js:557-585 | Each phase is as long as the tally entry of its severity. |
| Aggregator.UnknownSeverityIgnored | cli-standalone/ucof.js:557-585 | A finding with an unknown severity leaves the plan and the score unchanged, but raises its own tally entry by one. |
| Aggregator.BasicPlanIdempotent | cli-standalone/ucof.js:570-585 | Re-planning the findings of one severity reproduces that phase and leaves the other three empty. |
| Domains.KeepRelevant | cli-standalone/ucof.js:434-439 | The filter keeps exactly those domains that are in the list and relevant. |
| Domains.KeepRelevantOrdered | cli-standalone/ucof.js:434-439 | Filtering a list in canonical order leaves it in canonical order. |
| Domains.KeepCanonical | cli-standalone/ucof.js:426-439 | Filtering the canonical order keeps frontend iff it was detected and external iff it was detected. It always keeps the six others, in canonical order. |
| Domains.SelectDomainsSpec | cli-standalone/ucof.js:426-439 | The selected domains are in canonical order and keep the six core domains. Frontend is selected iff `tech_stack?.frontend?.length` is truthy. External is selected iff `ai_services?.length` or `queue` is truthy. |
| Domains.SelectionNeverEmpty | cli-standalone/ucof.js:426-439 | Security is always selected. |
| Domains.SelectWithoutOptional | cli-standalone/ucof.js:426-439 | With neither detection, the selection is exactly security, data, backend, infrastructure, performance, quality. |
| Domains.NoFrontendNoExternal | cli-standalone/ucof.js:434-439 | An empty frontend list, a null queue and an empty AI-service list give that six-domain selection. |
| Domains.EmptyQueueListKeepsExternal | cli-standalone/ucof.js:436-437 | A queue given as `[]` is truthy, so external is still selected. |
| Domains.CanonicalOrderUnique | cli-standalone/ucof.js:426-431 | Two lists in canonical order with the same members are equal. |
| Domains.GetRelevantPaths | cli-standalone/ucof.js:279-292 | The lookup throws exactly when the discovery data is null or `backend_paths` is truthy and not iterable. Otherwise security, performance and quality get `["**/*"]`, and frontend, backend, data and infrastructure get their declared lists (or `[]`). External gets the same list as backend when that list is an array (a string `backend_paths` is spread into characters). |
| Domains.RelevantPathsAreLists | cli-standalone/ucof.js:279-292 | When the declared path fields are arrays or absent, every domain gets an array and nothing throws. |
| Domains.NumericBackendPathsThrow | cli-standalone/ucof.js:283-284 | A numeric `backend_paths` makes the lookup throw for every domain, the broad-access ones included. |
| Engine.FirstStart | cli-standalone/ucof.js:366 | Returns the first index at or after `from` where the regex can start, or none when no index can. |
| Engine.LastIndexOf | cli-standalone/ucof.js:366 | Returns the last occurrence of a character, or none iff it does not occur. |
| Engine.MatchBounds | cli-standalone/ucof.js:325 | The match starts at the earliest opener that has a closer of its kind later on. It ends at the last such closer (greedy), and there is no match iff no index can start one. |
| Engine.JsonMatch | cli-standalone/ucof.js:366 | The matched span is a contiguous piece of the reply, at least two long, from an opener to its closer. There is none iff no index can start a match. |
| Engine.Reply | cli-standalone/ucof.js:365-371 | With no match the raw text is returned as a string. With a match the call throws iff the span does not parse, and otherwise returns the parsed value. |
| Engine.SurroundedValue | cli-standalone/ucof.js:366 | Text around a single JSON value is dropped when no opener precedes the value and no closer of its kind follows it. |
| Engine.GreedyAcrossValues | cli-standalone/ucof.js:366 | Two objects in one reply are taken as one span from the first `{` to the last `}`. |
| Report.Find | cli-standalone/ucof.js:652 | `find` returns the first finding carrying the id, or nothing iff none does. |
| Report.SplitJoin | cli-standalone/ucof.js:655 | `join('\n')` is undone by splitting at newlines: the lines come back when none holds a newline. |
| Report.FormatPhaseFindings | cli-standalone/ucof.js:647-648 | The text is "No items in this phase." exactly when the phase is missing, its id list is missing, or that list is empty. A non-empty phase never renders as that text. |
| Report.FormatPhaseLines | cli-standalone/ucof.js:647-656 | A non-empty phase renders one line per id, in order. A line shows the id in bold with the title of the first finding carrying it, or the bare id when none does. |
| Pipeline.DomainEvents | cli-standalone/ucof.js:443-463 | Domain stages never make the discovery call. |
| Pipeline.RunDomainStages | cli-standalone/ucof.js:443-463 | The loop aborts iff there is a domain and building its prompt throws (`getRelevantPaths` throws, or `project_name` cannot be converted), and then has no events. Otherwise the findings are the array replies concatenated in domain order. The events are a call per domain plus a findings write after each array reply. |
| Pipeline.RunDiscovery | cli-standalone/ucof.js:394-411 | With `--skip-discovery` and a cache file, the cached data is loaded with no call, and an unparsable cache is an error. Otherwise discovery is called: a throw ends the run, and a value is written to `discovery.json`. |
| Pipeline.RunSynthesis | cli-standalone/ucof.js:465-523 | Writes `all-findings.json` and calls synthesis, then writes `synthesis.json` only when the call returned. The result is the engine's value or, on a throw, the basic synthesis, unless tallying the findings throws (a `null` element, or a `severity` that cannot become a property key). `report.md` is written unless the catch block's tally threw. |
| Pipeline.RunAnalysis | cli-standalone/ucof.js:378-551 | With the cache used there is no discovery call; otherwise the trace starts with it. A run aborts with the matching reason after the discovery events alone when it fails to load discovery, when its summary lines throw (no `tech_stack`, an unconvertible tech-stack value or `file_counts.total`), or when its domain prompt throws (throwing paths, an unconvertible `project_name`; the synthesis prompt converts the same name again). Otherwise it selects the domains and collects their array replies in order. It then uses the fallback exactly when synthesis throws and keeps any returned value, unless tallying the findings throws. The trace is discovery, domain stages, `all-findings.json`, the synthesis call, `synthesis.json` (only when it returned), then `report.md` (not when the fallback's tally threw). |
| Pipeline.TallyFailure | cli-standalone/ucof.js:488-523 | Synthesis fails iff an element the tally throws on (a `null`, an unconvertible `severity`) was collected and something tallies the findings: a thrown synthesis call, or an engine synthesis without a truthy `summary.by_severity`. `report.md` is missing iff the failure is in the catch block. Otherwise a thrown call gives the basic synthesis and a returned value is kept. |
| Pipeline.TallySafeRepliesComplete | cli-standalone/ucof.js:443-523 | When no domain replies with an array holding an element the tally throws on, the synthesis phase succeeds whatever the synthesis call does. |
| Pipeline.UnconvertibleSeverityAborts | cli-standalone/ucof.js:488-500 | A finding whose `severity` is `{"toString": 0}` ends the run in the catch block's tally, and `report.md` is not written. |
| Pipeline.UnconvertibleTechStackAborts | cli-standalone/ucof.js:413-414 | A frontend list holding `{"toString": 0}` makes the summary line's `join` throw, so the run never reaches synthesis. |
| Pipeline.UnconvertibleProjectNameAborts | cli-standalone/ucof.js:164-174 | An unconvertible `project_name` fails the first domain prompt, which is always built, so the run never reaches synthesis. |
| Pipeline.TallyThrowCollected | cli-standalone/ucof.js:453-454 | The tally throws on the collected findings iff some selected domain replied with an array holding an element it throws on. |
| Pipeline.TallyThrowsAppend | cli-standalone/ucof.js:557-562 | The tally throws on two runs of elements iff it throws on one of them. |
| JsonValues.ToStringThrowsTruthy | cli-standalone/ucof.js:414 | Only objects and arrays fail to convert to a string, and they are truthy, so a logical-or fallback never replaces them. |
| JsonValues.ToStringThrowsNested | cli-standalone/ucof.js:414 | An array fails to convert iff one of its elements does, at any depth. |
| Pipeline.CollectAppend | cli-standalone/ucof.js:443-463 | Collecting over two runs of stages is the concatenation of collecting over each. |
| Pipeline.Succeeded | cli-standalone/ucof.js:453-458 | The succeeding domains are exactly the listed domains whose reply was an array. |
| Pipeline.FailedDomainsContributeNothing | cli-standalone/ucof.js:450-462 | The collected findings equal those of the succeeding domains alone. A throw or a non-array reply contributes nothing. |
| Pipeline.DomainArtifacts | cli-standalone/ucof.js:443-463 | A domain's findings file is written iff the domain ran and returned an array, and it is called iff it was selected. |
| Pipeline.FallbackConsistent | cli-standalone/ucof.js:488-500 | In the basic synthesis the total equals the number of findings and the tally sums to it. The score lies in [0, 100] and agrees with the tally, and each phase is as long as its severity's count. Every plan id resolves to a deduplicated finding. |
| Pipeline.EmptyFallback | cli-standalone/ucof.js:488-500 | With no findings the basic synthesis has total 0, an empty tally, score 100 and four empty phases. |

## Left out

- The wording of the prompts (discovery, domain and synthesis), the skill files read by `readSkill`, logging, colours, timing and the final summary printout are left out. A `readSkill` failure is not modelled.
- Filesystem I/O is reduced to `Write` events that always succeed. A failing write inside the discovery or synthesis `try` would take the error path and is not modelled.
- The engine itself is left out: the `claude` subprocess, the Anthropic SDK, the model names and the time-outs. Each call is an input outcome. `executeClaudeCode` shares its reply handling with `executeAnthropicAPI` (`Engine.Reply`); its temporary prompt file is not modelled.
- JSON.parse is an abstract partial function; JSON text syntax is not modelled.
- JSON numbers are reals, and the member order of objects is not kept.
- String `length` counts characters, not UTF-16 units; the model only tests it for truthiness.
- Domain replies are arrays of arbitrary JSON values, collected as they are. Reading a non-null element as a finding (`id`, `severity`, `title`) is an abstract function `asFinding`, with missing fields standing for the string `"undefined"`. An element the tally throws on (`null`, or a `severity` that cannot be converted) is not read: the run ends first (see Pipeline.TallyFailure).
- Aggregator.BasicPlan / Report.Find: finding fields are modelled as the property-key strings. Values that `===` or truthiness tell apart from their key are not modelled. Examples are an array severity such as `["critical"]`, which the tally counts as `critical` but no phase selects; ids of different JSON types (`1` and `"1"`); and a falsy element found for an `undefined` id, which renders as a bare id. Aggregator.BasicPlanMatchesCounts and Pipeline.FallbackConsistent hold for findings whose fields are strings.
- Aggregator.CountBySeverity: severities that name `Object.prototype` members (`constructor`, `__proto__`, …) behave differently in JavaScript, and that is not modelled. Such a key can give a non-numeric count or a `NaN` health score.
- Pipeline.RunAnalysis: does not model the body of `generateMarkdownReport` beyond `formatPhaseFindings`. It assumes report generation does not throw. It can throw, though: an engine synthesis whose `systemic_patterns` or `deduplicated_findings` is not an array; or, on either path, a value the report converts to a string that cannot be converted. Examples of such a value are a finding's `id`, `title`, `impact`, `evidence.file` or `recommendation.action`, or an engine `health_score` or `by_severity.critical` (ucof.js:587-642). The closing summary's conversions (ucof.js:519, 524-527) read the same values as the report body, so they add no failure of their own.
- Report.FormatPhaseFindings: a phase whose `findings` member is a non-array value (a string, an object with a `length`) is not modelled. The phase is taken to be absent, or to be a list of ids.
- Fix mode, the command-line parser and the help text are not part of this model.
