/** The one piece of report rendering with logic in it, `formatPhaseFindings`
    (cli-standalone/ucof.js:647-656): the ids of an execution-plan phase are
    resolved against the deduplicated findings and rendered one per line. */
module Report {
  import opened Wrappers
  import opened Aggregator

  /** An execution-plan phase; its `findings` list of ids may be missing. */
  datatype Phase = Phase(findings: Option<seq<string>>)

  const NoItems: string := "No items in this phase."

  /** `findings.find(f => f.id === id)`: the first finding with that id. */
  function Find(fs: seq<Finding>, id: string): (r: Option<Finding>)
    ensures r.None? <==> forall i :: 0 <= i < |fs| ==> fs[i].id != id
    ensures r.Some? ==>
              exists i :: 0 <= i < |fs| && fs[i] == r.value && r.value.id == id
                          && (forall j :: 0 <= j < i ==> fs[j].id != id)
  {
    if fs == [] then None
    else if fs[0].id == id then Some(fs[0])
    else
      var r := Find(fs[1..], id);
      assert forall i :: 1 <= i < |fs| ==> fs[i] == fs[1..][i - 1];
      r
  }

  /** `findings?.find(...)`: with no finding list, nothing is found. */
  function Lookup(findings: Option<seq<Finding>>, id: string): Option<Finding> {
    match findings
    case None => None
    case Some(fs) => Find(fs, id)
  }

  /** One line: the id in bold with the title of the finding it names, or the
      bare id when it names none (a dangling reference). */
  function RenderId(id: string, found: Option<Finding>): string {
    match found
    case Some(f) => "- **" + id + "**: " + f.title
    case None => "- " + id
  }

  /** `.join('\n')`. */
  function JoinLines(lines: seq<string>): (r: string)
    ensures |lines| > 0 ==> lines[0] <= r
  {
    if |lines| == 0 then ""
    else if |lines| == 1 then lines[0]
    else lines[0] + "\n" + JoinLines(lines[1..])
  }

  /** The index of the first `c` in `s`. */
  function IndexOf(s: string, c: char): (i: nat)
    requires c in s
    ensures i < |s| && s[i] == c && c !in s[..i]
  {
    if s[0] == c then 0
    else
      assert c in s[1..] by {
        var k :| 0 <= k < |s| && s[k] == c;
        assert s[1..][k - 1] == c;
      }
      var i := 1 + IndexOf(s[1..], c);
      assert s[..i] == [s[0]] + s[1..][..i - 1];
      i
  }

  lemma IndexOfUnique(s: string, c: char, i: nat)
    requires i < |s| && s[i] == c && c !in s[..i]
    ensures IndexOf(s, c) == i
  {
  }

  /** `s.split('\n')`. */
  function SplitLines(s: string): (r: seq<string>)
    ensures |r| > 0
    decreases |s|
  {
    if '\n' !in s then [s]
    else
      var i := IndexOf(s, '\n');
      [s[..i]] + SplitLines(s[i + 1..])
  }

  /** Splitting a line followed by a newline yields that line first. */
  lemma SplitFirstLine(l0: string, rest: string)
    requires '\n' !in l0
    ensures SplitLines(l0 + "\n" + rest) == [l0] + SplitLines(rest)
  {
    var s := l0 + "\n" + rest;
    assert s[|l0|] == '\n' && s[..|l0|] == l0;
    IndexOfUnique(s, '\n', |l0|);
    assert s[|l0| + 1..] == rest;
  }

  /** Splitting at the newlines undoes the join, as long as no line holds a
      newline itself. */
  lemma {:induction false} SplitJoin(lines: seq<string>)
    requires |lines| > 0
    requires forall k :: 0 <= k < |lines| ==> '\n' !in lines[k]
    ensures SplitLines(JoinLines(lines)) == lines
  {
    if |lines| > 1 {
      assert '\n' !in lines[0];
      SplitFirstLine(lines[0], JoinLines(lines[1..]));
      SplitJoin(lines[1..]);
      assert lines == [lines[0]] + lines[1..];
    }
  }

  /** The lines of a non-empty phase, one per id, in order. */
  function PhaseLines(ids: seq<string>, findings: Option<seq<Finding>>): (lines: seq<string>)
    ensures |lines| == |ids|
  {
    seq(|ids|, k requires 0 <= k < |ids| => RenderId(ids[k], Lookup(findings, ids[k])))
  }

  /** `formatPhaseFindings(phase, findings)`; `None` for a missing phase. */
  function FormatPhaseFindings(phase: Option<Phase>, findings: Option<seq<Finding>>): (r: string)
    ensures r == NoItems <==> phase.None? || phase.value.findings.None? || phase.value.findings.value == []
  {
    if phase.None? || phase.value.findings.None? || phase.value.findings.value == [] then NoItems
    else
      var lines := PhaseLines(phase.value.findings.value, findings);
      assert lines[0][0] == '-' && JoinLines(lines)[0] == '-';
      JoinLines(lines)
  }

  /** A non-empty phase renders one line per id, in order: the id in bold with
      the title of the first finding carrying it, or the bare id when no finding
      carries it (ids and titles without newlines). */
  lemma FormatPhaseLines(ids: seq<string>, findings: Option<seq<Finding>>)
    requires ids != []
    requires forall k :: 0 <= k < |ids| ==> '\n' !in ids[k]
    requires findings.Some? ==> forall f :: f in findings.value ==> '\n' !in f.title
    ensures var lines := SplitLines(FormatPhaseFindings(Some(Phase(Some(ids))), findings));
      && |lines| == |ids|
      && forall k :: 0 <= k < |ids| ==>
        if findings.Some? && exists i :: 0 <= i < |findings.value| && findings.value[i].id == ids[k]
        then exists i :: 0 <= i < |findings.value| && findings.value[i].id == ids[k]
               && (forall j :: 0 <= j < i ==> findings.value[j].id != ids[k])
               && lines[k] == "- **" + ids[k] + "**: " + findings.value[i].title
        else lines[k] == "- " + ids[k]
  {
    var lines := PhaseLines(ids, findings);
    forall k | 0 <= k < |lines| ensures '\n' !in lines[k] {
      var found := Lookup(findings, ids[k]);
      if found.Some? {
        assert found.value in findings.value;
        assert lines[k] == "- **" + ids[k] + "**: " + found.value.title;
      }
    }
    SplitJoin(lines);
  }
}
