/** What the orchestrator keeps of an engine call (cli-standalone/ucof.js:302-372):
    the reply text is searched with `/\{[\s\S]*\}|\[[\s\S]*\]/`, a matched span
    is handed to `JSON.parse`, and a reply without a match is returned as text. */
module Engine {
  import opened Wrappers
  import opened JsonValues

  /** An engine call as the orchestrator sees it: an exception, or a value. */
  datatype CallOutcome = Threw | Returned(value: Json)

  predicate IsOpener(c: char) {
    c == '{' || c == '['
  }

  /** The closer the regex pairs with an opener. */
  function Closer(opener: char): char {
    if opener == '{' then '}' else ']'
  }

  /** The regex can match starting at `i`: an opener there and a closer of the
      same kind somewhere after it. */
  predicate CanStart(text: string, i: nat)
    requires i < |text|
  {
    IsOpener(text[i]) && Closer(text[i]) in text[i + 1..]
  }

  /** The first index at or after `from` where the regex can start. */
  function FirstStart(text: string, from: nat): (r: Option<nat>)
    requires from <= |text|
    ensures r.Some? ==> from <= r.value < |text| && CanStart(text, r.value)
    ensures r.Some? ==> forall i :: from <= i < r.value ==> !CanStart(text, i)
    ensures r.None? ==> forall i :: from <= i < |text| ==> !CanStart(text, i)
    decreases |text| - from
  {
    if from == |text| then None
    else if CanStart(text, from) then Some(from)
    else FirstStart(text, from + 1)
  }

  /** The last index holding `c`. */
  function LastIndexOf(text: string, c: char): (r: Option<nat>)
    ensures r.Some? ==> r.value < |text| && text[r.value] == c
    ensures r.Some? ==> forall j :: r.value < j < |text| ==> text[j] != c
    ensures r.None? <==> c !in text
  {
    if text == [] then None
    else if text[|text| - 1] == c then Some(|text| - 1)
    else
      var r := LastIndexOf(text[..|text| - 1], c);
      assert forall j :: 0 <= j < |text| - 1 ==> text[..|text| - 1][j] == text[j];
      assert c in text[..|text| - 1] ==> c in text;
      assert c in text ==> exists j :: 0 <= j < |text| - 1 && text[j] == c;
      r
  }

  /** The bounds, both inclusive, of the regex match: the greedy alternatives
      start at the earliest index that can start a match and run to the last
      closer of that opener's kind. */
  function MatchBounds(text: string): (r: Option<(nat, nat)>)
    ensures r.Some? ==> var (a, b) := r.value;
      && a < b < |text|
      && IsOpener(text[a]) && text[b] == Closer(text[a])
      && (forall i :: 0 <= i < a ==> !CanStart(text, i))
      && (forall j :: b < j < |text| ==> text[j] != Closer(text[a]))
    ensures r.None? <==> forall i :: 0 <= i < |text| ==> !CanStart(text, i)
  {
    match FirstStart(text, 0)
    case None => None
    case Some(a) =>
      var c := Closer(text[a]);
      assert c in text[a + 1..];
      var k :| a + 1 <= k < |text| && text[k] == c;
      var b := LastIndexOf(text, c).value;
      Some((a, b))
  }

  /** `span` is the contiguous piece of `text` starting at index `a`. */
  predicate OccursAt(text: string, a: int, span: string) {
    0 <= a && a + |span| <= |text| && text[a..a + |span|] == span
  }

  /** `text.match(/\{[\s\S]*\}|\[[\s\S]*\]/)?.[0]`. */
  function JsonMatch(text: string): (r: Option<string>)
    ensures r.Some? ==> |r.value| >= 2 && IsOpener(r.value[0]) && r.value[|r.value| - 1] == Closer(r.value[0])
    ensures r.Some? ==> exists a :: OccursAt(text, a, r.value)
    ensures r.None? <==> forall i :: 0 <= i < |text| ==> !CanStart(text, i)
    ensures r.Some? <==> MatchBounds(text).Some?
    ensures r.Some? ==> r.value == text[MatchBounds(text).value.0..MatchBounds(text).value.1 + 1]
  {
    match MatchBounds(text)
    case None => None
    case Some((a, b)) =>
      assert text[a..b + 1][0] == text[a];
      assert OccursAt(text, a, text[a..b + 1]);
      Some(text[a..b + 1])
  }

  /** The end of `executeAnthropicAPI` and of `executeClaudeCode`: the matched
      span goes through `JSON.parse` (given here as a partial function; `None` is
      a SyntaxError, which the caller sees as a thrown call) and a reply without
      a match is returned verbatim as a string. */
  function Reply(text: string, parse: string -> Option<Json>): (r: CallOutcome)
    ensures JsonMatch(text).None? ==> r == Returned(JStr(text))
    ensures r.Threw? <==> JsonMatch(text).Some? && parse(JsonMatch(text).value).None?
    ensures JsonMatch(text).Some? && r.Returned? ==> Some(r.value) == parse(JsonMatch(text).value)
  {
    match JsonMatch(text)
    case None => Returned(JStr(text))
    case Some(span) =>
      match parse(span)
      case None => Threw
      case Some(v) => Returned(v)
  }

  /** Chatter around one JSON value is dropped: with no opener before the value
      and no closer of its kind after it, the match is exactly the value. */
  lemma {:induction false} SurroundedValue(before: string, value: string, after: string)
    requires forall i :: 0 <= i < |before| ==> !IsOpener(before[i])
    requires |value| >= 2 && IsOpener(value[0]) && value[|value| - 1] == Closer(value[0])
    requires Closer(value[0]) !in after
    ensures JsonMatch(before + value + after) == Some(value)
  {
    var text := before + value + after;
    var a, b := |before|, |before| + |value| - 1;
    assert text[a] == value[0] && text[b] == Closer(value[0]);
    assert CanStart(text, a) by { assert text[a + 1..][b - a - 1] == text[b]; }
    assert forall i :: 0 <= i < a ==> text[i] == before[i];
    assert forall j :: b < j < |text| ==> text[j] == after[j - b - 1];
    var (a', b') := MatchBounds(text).value;
    assert a' == a;
    assert b' == b;
    assert text[a..b + 1] == value;
  }

  /** The regex is greedy, not bracket-balanced: two objects in one reply give a
      single span from the first `{` to the last `}`, which is not one JSON value. */
  lemma GreedyAcrossValues()
    ensures JsonMatch("{\"a\":1} then {\"b\":2}") == Some("{\"a\":1} then {\"b\":2}")
  {
    var text := "{\"a\":1} then {\"b\":2}";
    SurroundedValue("", text, "");
    assert "" + text + "" == text;
  }
}
