/**
 * Parsed JSON values and the handful of JavaScript operations the diagnostic tool applies
 * to them: truthiness, `typeof` (with `Array.isArray` split out), property lookup, the
 * `in` operator, and `Object.keys` / `Object.values` / `Object.entries`.
 *
 * An object's members are kept in the order in which the engine enumerates them, with
 * the duplicates already resolved by the parser. Numbers are exact reals.
 */
module Json {
  import opened Wrappers
  import Text

  datatype Json =
    | JNull
    | JBool(b: bool)
    | JNum(n: real)
    | JStr(s: string)
    | JArr(items: seq<Json>)
    | JObj(members: seq<(string, Json)>)

  /** JavaScript truthiness of a parsed value: null, false, 0 and "" are falsy. */
  predicate Truthy(j: Json) {
    match j
    case JNull => false
    case JBool(b) => b
    case JNum(n) => n != 0.0
    case JStr(s) => s != ""
    case _ => true
  }

  /** `Array.isArray(v) ? 'array' : typeof v` -- note that `typeof null` is "object". */
  function TypeName(j: Json): (t: string)
    ensures t == "object" <==> j.JNull? || j.JObj?
    ensures t == "array" <==> j.JArr?
  {
    match j
    case JNull => "object"
    case JBool(_) => "boolean"
    case JNum(_) => "number"
    case JStr(_) => "string"
    case JArr(_) => "array"
    case JObj(_) => "object"
  }

  /** The value of the first member named `k`, if any. */
  function Lookup(members: seq<(string, Json)>, k: string): (r: Option<Json>)
    ensures r.Some? <==> exists i :: 0 <= i < |members| && members[i].0 == k
    ensures r.Some? ==> exists i :: 0 <= i < |members| && members[i] == (k, r.value)
  {
    if |members| == 0 then None
    else if members[0].0 == k then Some(members[0].1)
    else
      var r := Lookup(members[1..], k);
      assert forall i :: 0 <= i < |members| - 1 ==> members[1..][i] == members[i + 1];
      r
  }

  /**
   * Property read `j.k` for a name that is neither an array index nor "length": only
   * objects have such properties, every other value yields `undefined` (None). Reading a
   * property of `null` throws; callers test for JNull before reading.
   */
  function Get(j: Json, k: string): (r: Option<Json>)
    ensures r.Some? ==> j.JObj?
  {
    if j.JObj? then Lookup(j.members, k) else None
  }

  /** Keys of a member list, in order. */
  function KeysOf(members: seq<(string, Json)>): (ks: seq<string>)
    ensures |ks| == |members|
    ensures forall i :: 0 <= i < |members| ==> ks[i] == members[i].0
  {
    if |members| == 0 then [] else [members[0].0] + KeysOf(members[1..])
  }

  /** Index keys "0", "1", ... of an array-like value of length n. */
  function IndexKeys(n: nat): (ks: seq<string>)
    ensures |ks| == n
    ensures forall i :: 0 <= i < n ==> ks[i] == Text.NatToString(i)
  {
    if n == 0 then [] else IndexKeys(n - 1) + [Text.NatToString(n - 1)]
  }

  /**
   * `Object.entries(j)` for a value that is not null: an object's members, an array's
   * elements or a string's characters under their index keys, nothing for a number or
   * a boolean.
   */
  function Entries(j: Json): (es: seq<(string, Json)>)
    ensures j.JObj? ==> es == j.members
    ensures j.JArr? ==> |es| == |j.items| && forall i :: 0 <= i < |es| ==> es[i] == (Text.NatToString(i), j.items[i])
    ensures j.JStr? ==> |es| == |j.s| && forall i :: 0 <= i < |es| ==> es[i] == (Text.NatToString(i), JStr([j.s[i]]))
    ensures j.JNull? || j.JBool? || j.JNum? ==> es == []
  {
    match j
    case JObj(ms) => ms
    case JArr(items) => seq(|items|, i requires 0 <= i < |items| => (Text.NatToString(i), items[i]))
    case JStr(s) => seq(|s|, i requires 0 <= i < |s| => (Text.NatToString(i), JStr([s[i]])))
    case _ => []
  }

  /** `Object.keys(j)` for a value that is not null. */
  function Keys(j: Json): (ks: seq<string>)
    ensures |ks| == |Entries(j)|
    ensures forall i :: 0 <= i < |ks| ==> ks[i] == Entries(j)[i].0
  {
    KeysOf(Entries(j))
  }

  /** `Object.values(j)` for a value that is not null. */
  function Values(j: Json): (vs: seq<Json>)
    ensures |vs| == |Entries(j)|
    ensures forall i :: 0 <= i < |vs| ==> vs[i] == Entries(j)[i].1
  {
    var es := Entries(j);
    seq(|es|, i requires 0 <= i < |es| => es[i].1)
  }

  /**
   * The `in` operator, `k in j`, for a name that is neither an array index nor "length".
   * None stands for the TypeError that `in` throws on null and on primitives.
   */
  function HasProperty(j: Json, k: string): (r: Option<bool>)
    ensures r.None? <==> !(j.JObj? || j.JArr?)
    ensures r == Some(true) <==> Get(j, k).Some?
  {
    match j
    case JObj(ms) => Some(Lookup(ms, k).Some?)
    case JArr(_) => Some(false)
    case _ => None
  }

  /** The message of the TypeError thrown by reading property `prop` of `null`. */
  function NullRead(prop: string): string {
    "Cannot read properties of null (reading '" + prop + "')"
  }

  /** The elements of `j[k]` when `Array.isArray(j[k])`, none otherwise. */
  function ArrayAt(j: Json, k: string): (xs: seq<Json>)
    ensures Get(j, k).Some? && Get(j, k).value.JArr? ==> xs == Get(j, k).value.items
    ensures !(Get(j, k).Some? && Get(j, k).value.JArr?) ==> xs == []
  {
    match Get(j, k)
    case Some(JArr(items)) => items
    case _ => []
  }

  /** Strings as JSON string values. */
  function Strs(ts: seq<string>): (js: seq<Json>)
    ensures |js| == |ts|
    ensures forall i :: 0 <= i < |ts| ==> js[i] == JStr(ts[i])
  {
    if |ts| == 0 then [] else [JStr(ts[0])] + Strs(ts[1..])
  }

  /** `JSON.parse` (Err carries the SyntaxError message) and `JSON.stringify`, left abstract. */
  datatype JsonCodec = JsonCodec(parse: string -> Result<Json>, stringify: Json -> string)
}
