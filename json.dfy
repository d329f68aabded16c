/** JSON values as the orchestrator sees them after `JSON.parse`, together with
    the few pieces of JavaScript semantics its decisions depend on: truthiness,
    property reads (`v.key`), optional chaining (`v?.key`) and `v || fallback`. */
module JsonValues {
  import opened Wrappers

  /** A parsed JSON value. Object member order is not kept: the orchestrator only
      looks members up by name. Numbers are reals (JSON has no NaN or infinities). */
  datatype Json =
    | JNull
    | JBool(b: bool)
    | JNum(n: real)
    | JStr(s: string)
    | JArr(items: seq<Json>)
    | JObj(fields: map<string, Json>)

  /** JavaScript truthiness of a value; `None` stands for `undefined`. */
  predicate Truthy(v: Option<Json>) {
    match v
    case None => false
    case Some(j) =>
      match j
      case JNull => false
      case JBool(b) => b
      case JNum(n) => n != 0.0
      case JStr(s) => s != ""
      case JArr(_) => true
      case JObj(_) => true
  }

  /** The property read `j.key` on a value that is not null: an own member of an
      object, the `length` of an array or a string, and `undefined` otherwise. */
  function Prop(j: Json, key: string): (r: Option<Json>)
    ensures r.Some? ==> j.JObj? || key == "length"
  {
    match j
    case JObj(fields) => if key in fields then Some(fields[key]) else None
    case JArr(items) => if key == "length" then Some(JNum(|items| as real)) else None
    case JStr(s) => if key == "length" then Some(JNum(|s| as real)) else None
    case _ => None
  }

  /** Optional chaining `v?.key`: `undefined` when `v` is null or undefined. */
  function OptProp(v: Option<Json>, key: string): Option<Json> {
    match v
    case None => None
    case Some(JNull) => None
    case Some(j) => Prop(j, key)
  }

  /** `v || fallback`. */
  function Or(v: Option<Json>, fallback: Json): (r: Json)
    ensures Truthy(v) ==> r == v.value
    ensures !Truthy(v) ==> r == fallback
  {
    if Truthy(v) then v.value else fallback
  }

  /** `!!v?.length`: the value is an array or a string with at least one element,
      or an object whose own `length` member is truthy. */
  predicate HasLength(v: Option<Json>) {
    Truthy(OptProp(v, "length"))
  }

  /** JavaScript's string conversion (a template `${v}`, a property key
      `acc[v]`, `join`) throws a TypeError on this value. An object with an own
      `toString` member has no callable `toString` (parsed JSON holds no
      functions), and its inherited `valueOf` returns the object itself, so no
      primitive is found. An array converts through `join`, which converts each
      element. Null, booleans, numbers, strings and other objects convert. */
  predicate ToStringThrows(j: Json) {
    match j
    case JObj(fields) => "toString" in fields
    case JArr(items) => exists k :: 0 <= k < |items| && ToStringThrows(items[k])
    case _ => false
  }

  /** Only objects and arrays can fail to convert, and both are truthy, so
      `v || fallback` converts `v` whenever the conversion would throw. */
  lemma ToStringThrowsTruthy(j: Json)
    ensures ToStringThrows(j) ==> (j.JObj? || j.JArr?) && Truthy(Some(j))
    ensures ToStringThrows(j) ==> Or(Some(j), JStr("")) == j
  {
  }

  /** An array converts exactly when all its elements do, however deep the
      unconvertible element sits. */
  lemma {:induction false} ToStringThrowsNested(inner: Json, before: seq<Json>, after: seq<Json>)
    ensures ToStringThrows(JArr(before + [inner] + after)) <==>
      ToStringThrows(inner) || ToStringThrows(JArr(before)) || ToStringThrows(JArr(after))
  {
    var items := before + [inner] + after;
    assert items[|before|] == inner;
    forall k | 0 <= k < |items| && ToStringThrows(items[k])
      ensures ToStringThrows(inner) || ToStringThrows(JArr(before)) || ToStringThrows(JArr(after))
    {
      if k < |before| {
        assert items[k] == before[k];
      } else if k > |before| {
        assert items[k] == after[k - |before| - 1];
      }
    }
    if ToStringThrows(JArr(before)) {
      var k :| 0 <= k < |before| && ToStringThrows(before[k]);
      assert items[k] == before[k];
    }
    if ToStringThrows(JArr(after)) {
      var k :| 0 <= k < |after| && ToStringThrows(after[k]);
      assert items[|before| + 1 + k] == after[k];
    }
  }

  lemma {:induction false} HasLengthOfArray(items: seq<Json>)
    ensures HasLength(Some(JArr(items))) <==> |items| > 0
  {
    assert OptProp(Some(JArr(items)), "length") == Some(JNum(|items| as real));
  }
}
