/** The aggregation helpers of the pipeline (cli-standalone/ucof.js:557-585):
    the severity tally, the health score and the naive four-phase plan that the
    orchestrator falls back on when the synthesis stage fails. */
module Aggregator {

  /** A finding as the helpers read it. Fields are strings: a finding whose
      fields are strings is read exactly, and a missing severity is the string
      "undefined", the key `acc[f.severity]` uses. Field values that are not
      strings, which `===` and property keys would treat differently, are not
      represented. */
  datatype Finding = Finding(id: string, severity: string, title: string)

  /** The four execution-plan phases of `generateBasicPlan`, each a list of ids. */
  datatype Plan = Plan(
    phase0Immediate: seq<string>,
    phase1Foundation: seq<string>,
    phase2Stability: seq<string>,
    phase3Hardening: seq<string>)

  /** The severity of every finding, in order. */
  function Severities(fs: seq<Finding>): (r: seq<string>)
    ensures |r| == |fs|
    ensures forall i :: 0 <= i < |fs| ==> r[i] == fs[i].severity
  {
    seq(|fs|, i requires 0 <= i < |fs| => fs[i].severity)
  }

  /** How many findings carry severity `s`: the reference definition, through the
      multiset of severities, against which the fold below is proved. */
  function Occurrences(fs: seq<Finding>, s: string): nat {
    multiset(Severities(fs))[s]
  }

  lemma OccurrencesAppend(xs: seq<Finding>, ys: seq<Finding>, s: string)
    ensures Occurrences(xs + ys, s) == Occurrences(xs, s) + Occurrences(ys, s)
  {
    assert Severities(xs + ys) == Severities(xs) + Severities(ys);
  }

  lemma OccurrencesSingle(f: Finding, s: string)
    ensures Occurrences([f], s) == if f.severity == s then 1 else 0
  {
    assert Severities([f]) == [f.severity];
  }

  // ---------------------------------------------------------------------------
  // countBySeverity
  // ---------------------------------------------------------------------------

  /** One step of the `reduce`: `acc[s] = (acc[s] || 0) + 1`. */
  function Tally(acc: map<string, nat>, s: string): map<string, nat> {
    acc[s := Count(acc, s) + 1]
  }

  /** `m[s] || 0`. */
  function Count(m: map<string, nat>, s: string): nat {
    if s in m then m[s] else 0
  }

  /** `countBySeverity`: a left fold of `Tally` over the findings, starting from
      the empty object. Absent severities are absent keys; unknown ones are
      counted like any other. */
  function CountBySeverity(fs: seq<Finding>): map<string, nat>
    decreases |fs|
  {
    if fs == [] then map[] else Tally(CountBySeverity(fs[..|fs| - 1]), fs[|fs| - 1].severity)
  }

  /** Every key of the tally is a severity that occurs, its value is the number
      of findings with that severity, and every occurring severity is a key. */
  lemma {:induction false} CountBySeverityCorrect(fs: seq<Finding>)
    ensures forall s :: s in CountBySeverity(fs) <==> Occurrences(fs, s) > 0
    ensures forall s :: Count(CountBySeverity(fs), s) == Occurrences(fs, s)
  {
    if fs != [] {
      var n := |fs| - 1;
      CountBySeverityCorrect(fs[..n]);
      assert fs == fs[..n] + [fs[n]];
      forall s ensures Occurrences(fs, s) == Occurrences(fs[..n], s) + (if fs[n].severity == s then 1 else 0) {
        OccurrencesAppend(fs[..n], [fs[n]], s);
        OccurrencesSingle(fs[n], s);
      }
    }
  }

  /** Some key of a non-empty map. */
  ghost function PickKey(m: map<string, nat>): (k: string)
    requires |m| > 0
    ensures k in m
  {
    var k :| k in m; k
  }

  lemma RemoveKeySize(m: map<string, nat>, k: string)
    requires k in m
    ensures |m - {k}| == |m| - 1
  {
    assert (m - {k}).Keys == m.Keys - {k};
  }

  /** The sum of the values of a map (the key picked first does not matter, see
      `SumValuesRemove`). */
  ghost function SumValues(m: map<string, nat>): nat
    decreases |m|
  {
    if |m| == 0 then 0
    else
      var k := PickKey(m);
      RemoveKeySize(m, k);
      m[k] + SumValues(m - {k})
  }

  lemma {:induction false} SumValuesRemove(m: map<string, nat>, k: string)
    requires k in m
    ensures SumValues(m) == m[k] + SumValues(m - {k})
    decreases |m|
  {
    var k' := PickKey(m);
    if k' != k {
      RemoveKeySize(m, k');
      RemoveKeySize(m, k);
      SumValuesRemove(m - {k'}, k);
      SumValuesRemove(m - {k}, k');
      assert (m - {k'}) - {k} == (m - {k}) - {k'};
    }
  }

  lemma SumValuesTally(acc: map<string, nat>, s: string)
    ensures SumValues(Tally(acc, s)) == SumValues(acc) + 1
  {
    var t := Tally(acc, s);
    SumValuesRemove(t, s);
    assert t[s] == Count(acc, s) + 1;
    if s in acc {
      SumValuesRemove(acc, s);
      assert t - {s} == acc - {s} by {
        assert (t - {s}).Keys == (acc - {s}).Keys;
      }
    } else {
      assert t - {s} == acc by {
        assert (t - {s}).Keys == acc.Keys;
      }
    }
  }

  /** The counts add up to the number of findings: no finding is dropped. */
  lemma {:induction false} CountBySeverityTotal(fs: seq<Finding>)
    ensures SumValues(CountBySeverity(fs)) == |fs|
  {
    if fs != [] {
      CountBySeverityTotal(fs[..|fs| - 1]);
      SumValuesTally(CountBySeverity(fs[..|fs| - 1]), fs[|fs| - 1].severity);
    }
  }

  // ---------------------------------------------------------------------------
  // calculateHealthScore
  // ---------------------------------------------------------------------------

  /** `weights[f.severity] || 0`. */
  function Weight(severity: string): nat {
    if severity == "critical" then 20
    else if severity == "high" then 10
    else if severity == "medium" then 3
    else if severity == "low" then 1
    else 0
  }

  /** The four severities the weights and the plan know about. */
  predicate KnownSeverity(severity: string) {
    severity == "critical" || severity == "high" || severity == "medium" || severity == "low"
  }

  /** `totalPenalty`: a left fold adding each finding's weight, starting at 0. */
  function Penalty(fs: seq<Finding>): nat
    decreases |fs|
  {
    if fs == [] then 0 else Penalty(fs[..|fs| - 1]) + Weight(fs[|fs| - 1].severity)
  }

  /** `calculateHealthScore`: `Math.max(0, 100 - totalPenalty)`. */
  function HealthScore(fs: seq<Finding>): (score: int)
    ensures 0 <= score <= 100
    ensures score == 100 <==> Penalty(fs) == 0
  {
    if 100 - Penalty(fs) > 0 then 100 - Penalty(fs) else 0
  }

  lemma {:induction false} PenaltyAppend(xs: seq<Finding>, ys: seq<Finding>)
    ensures Penalty(xs + ys) == Penalty(xs) + Penalty(ys)
    decreases |ys|
  {
    if ys != [] {
      var n := |ys| - 1;
      assert (xs + ys)[..|xs + ys| - 1] == xs + ys[..n];
      assert (xs + ys)[|xs + ys| - 1] == ys[n];
      PenaltyAppend(xs, ys[..n]);
    } else {
      assert xs + ys == xs;
    }
  }

  /** The penalty is the weighted sum of the severity counts. */
  lemma {:induction false} PenaltyFromCounts(fs: seq<Finding>)
    ensures Penalty(fs) == 20 * Occurrences(fs, "critical") + 10 * Occurrences(fs, "high")
                         + 3 * Occurrences(fs, "medium") + Occurrences(fs, "low")
  {
    if fs != [] {
      var n := |fs| - 1;
      PenaltyFromCounts(fs[..n]);
      assert fs == fs[..n] + [fs[n]];
      OccurrencesAppend(fs[..n], [fs[n]], "critical");
      OccurrencesAppend(fs[..n], [fs[n]], "high");
      OccurrencesAppend(fs[..n], [fs[n]], "medium");
      OccurrencesAppend(fs[..n], [fs[n]], "low");
      OccurrencesSingle(fs[n], "critical");
      OccurrencesSingle(fs[n], "high");
      OccurrencesSingle(fs[n], "medium");
      OccurrencesSingle(fs[n], "low");
    }
  }

  /** The score reported next to the tally agrees with it: 100 minus the
      weighted counts of the four known severities, clamped at 0. */
  lemma HealthScoreFromCounts(fs: seq<Finding>)
    ensures var m := CountBySeverity(fs);
      var p := 20 * Count(m, "critical") + 10 * Count(m, "high") + 3 * Count(m, "medium") + Count(m, "low");
      HealthScore(fs) == if p < 100 then 100 - p else 0
  {
    PenaltyFromCounts(fs);
    CountBySeverityCorrect(fs);
  }

  /** Adding findings never raises the score. */
  lemma HealthScoreAppendNonIncreasing(fs: seq<Finding>, more: seq<Finding>)
    ensures HealthScore(fs + more) <= HealthScore(fs)
  {
    PenaltyAppend(fs, more);
  }

  /** The score is 100 exactly when no finding has one of the four known severities. */
  lemma {:induction false} HealthScorePerfect(fs: seq<Finding>)
    ensures HealthScore(fs) == 100 <==> forall i :: 0 <= i < |fs| ==> !KnownSeverity(fs[i].severity)
  {
    PenaltyFromCounts(fs);
    if exists i :: 0 <= i < |fs| && KnownSeverity(fs[i].severity) {
      var i :| 0 <= i < |fs| && KnownSeverity(fs[i].severity);
      assert Severities(fs)[i] in multiset(Severities(fs));
    } else {
      forall s | KnownSeverity(s) ensures Occurrences(fs, s) == 0 {
      }
    }
  }

  /** Two critical findings and one low one score 59 and tally {critical: 2, low: 1}. */
  lemma HealthScoreExample(a: string, b: string, c: string)
    ensures var fs := [Finding(a, "critical", ""), Finding(b, "critical", ""), Finding(c, "low", "")];
      HealthScore(fs) == 59 && CountBySeverity(fs) == map["critical" := 2, "low" := 1]
  {
    var fs := [Finding(a, "critical", ""), Finding(b, "critical", ""), Finding(c, "low", "")];
    assert fs[..2] == [Finding(a, "critical", ""), Finding(b, "critical", "")];
    assert fs[..2][..1] == [Finding(a, "critical", "")];
    assert fs[..2][..1][..0] == [];
    assert CountBySeverity(fs[..2][..1]) == map["critical" := 1];
    assert Penalty(fs[..2][..1]) == 20;
    assert CountBySeverity(fs[..2]) == map["critical" := 2];
    assert Penalty(fs[..2]) == 40;
  }

  // ---------------------------------------------------------------------------
  // generateBasicPlan
  // ---------------------------------------------------------------------------

  /** `findings.filter(f => f.severity === severity).map(f => f.id)`. */
  function IdsWithSeverity(fs: seq<Finding>, severity: string): (ids: seq<string>)
    ensures |ids| <= |fs|
    ensures forall i :: 0 <= i < |fs| && fs[i].severity == severity ==> fs[i].id in ids
    ensures forall id :: id in ids ==> exists i :: 0 <= i < |fs| && fs[i].id == id && fs[i].severity == severity
  {
    if fs == [] then []
    else
      var rest := IdsWithSeverity(fs[1..], severity);
      assert forall i :: 1 <= i < |fs| ==> fs[i] == fs[1..][i - 1];
      if fs[0].severity == severity then [fs[0].id] + rest else rest
  }

  /** The selection distributes over concatenation: within a phase the ids keep
      the order of the findings. */
  lemma {:induction false} IdsWithSeverityAppend(xs: seq<Finding>, ys: seq<Finding>, severity: string)
    ensures IdsWithSeverity(xs + ys, severity) == IdsWithSeverity(xs, severity) + IdsWithSeverity(ys, severity)
  {
    if xs != [] {
      assert (xs + ys)[0] == xs[0];
      assert (xs + ys)[1..] == xs[1..] + ys;
      IdsWithSeverityAppend(xs[1..], ys, severity);
    } else {
      assert xs + ys == ys;
    }
  }

  /** A phase holds one id per finding of its severity. */
  lemma {:induction false} IdsWithSeverityLength(fs: seq<Finding>, severity: string)
    ensures |IdsWithSeverity(fs, severity)| == Occurrences(fs, severity)
  {
    if fs != [] {
      IdsWithSeverityLength(fs[1..], severity);
      assert fs == [fs[0]] + fs[1..];
      OccurrencesAppend([fs[0]], fs[1..], severity);
      OccurrencesSingle(fs[0], severity);
    }
  }

  /** `generateBasicPlan`. */
  function BasicPlan(fs: seq<Finding>): Plan {
    Plan(IdsWithSeverity(fs, "critical"), IdsWithSeverity(fs, "high"),
         IdsWithSeverity(fs, "medium"), IdsWithSeverity(fs, "low"))
  }

  /** The total number of ids over the four phases. */
  function PlanSize(p: Plan): nat {
    |p.phase0Immediate| + |p.phase1Foundation| + |p.phase2Stability| + |p.phase3Hardening|
  }

  /** The phases never hold more ids than there are findings, and hold exactly
      one per finding precisely when every severity is one of the known four. */
  lemma {:induction false} BasicPlanSize(fs: seq<Finding>)
    ensures PlanSize(BasicPlan(fs)) <= |fs|
    ensures PlanSize(BasicPlan(fs)) == |fs| <==> forall i :: 0 <= i < |fs| ==> KnownSeverity(fs[i].severity)
  {
    if fs != [] {
      BasicPlanSize(fs[1..]);
      assert forall i :: 1 <= i < |fs| ==> fs[i] == fs[1..][i - 1];
      assert forall i :: 0 <= i < |fs[1..]| ==> fs[1..][i] == fs[i + 1];
    }
  }

  /** Each phase is as long as the tally of its severity. */
  lemma BasicPlanMatchesCounts(fs: seq<Finding>)
    ensures var p, m := BasicPlan(fs), CountBySeverity(fs);
      && |p.phase0Immediate| == Count(m, "critical")
      && |p.phase1Foundation| == Count(m, "high")
      && |p.phase2Stability| == Count(m, "medium")
      && |p.phase3Hardening| == Count(m, "low")
  {
    CountBySeverityCorrect(fs);
    IdsWithSeverityLength(fs, "critical");
    IdsWithSeverityLength(fs, "high");
    IdsWithSeverityLength(fs, "medium");
    IdsWithSeverityLength(fs, "low");
  }

  /** A finding with a severity outside the known four is counted by the tally
      but changes neither the plan nor the score. */
  lemma UnknownSeverityIgnored(fs: seq<Finding>, f: Finding)
    requires !KnownSeverity(f.severity)
    ensures BasicPlan(fs + [f]) == BasicPlan(fs)
    ensures HealthScore(fs + [f]) == HealthScore(fs)
    ensures Count(CountBySeverity(fs + [f]), f.severity) == Count(CountBySeverity(fs), f.severity) + 1
  {
    IdsWithSeverityAppend(fs, [f], "critical");
    IdsWithSeverityAppend(fs, [f], "high");
    IdsWithSeverityAppend(fs, [f], "medium");
    IdsWithSeverityAppend(fs, [f], "low");
    PenaltyAppend(fs, [f]);
    assert (fs + [f])[..|fs + [f]| - 1] == fs;
  }

  /** `findings.filter(f => f.severity === severity)`. */
  function WithSeverity(fs: seq<Finding>, severity: string): (r: seq<Finding>)
    ensures forall f :: f in r ==> f in fs && f.severity == severity
  {
    if fs == [] then []
    else if fs[0].severity == severity then [fs[0]] + WithSeverity(fs[1..], severity)
    else WithSeverity(fs[1..], severity)
  }

  /** Re-planning the findings of one phase reproduces that phase and leaves the
      other three empty. */
  lemma {:induction false} BasicPlanIdempotent(fs: seq<Finding>, severity: string)
    requires KnownSeverity(severity)
    ensures var p := BasicPlan(WithSeverity(fs, severity));
      && p.phase0Immediate == (if severity == "critical" then BasicPlan(fs).phase0Immediate else [])
      && p.phase1Foundation == (if severity == "high" then BasicPlan(fs).phase1Foundation else [])
      && p.phase2Stability == (if severity == "medium" then BasicPlan(fs).phase2Stability else [])
      && p.phase3Hardening == (if severity == "low" then BasicPlan(fs).phase3Hardening else [])
  {
    if fs != [] {
      BasicPlanIdempotent(fs[1..], severity);
    }
  }
}
