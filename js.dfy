/** Values of the JavaScript runtime that the three core files share:
    optional values, thrown errors, JavaScript truthiness, and JSON values. */
module Js {

  /** A value that may be `null` or `undefined` (None). */
  datatype Option<T> = None | Some(value: T)

  /** A thrown `Error`; only its `message` is observable by the core. */
  datatype JsError = JsError(message: string)

  /** The outcome of a call that either returns a value or throws. */
  datatype Result<T> = Ok(value: T) | Err(error: JsError)

  /** JavaScript truthiness of a `string | null | undefined` value:
      `null`, `undefined` and the empty string are all falsy, so a guard
      `if (!x)` rejects each of them. */
  predicate Truthy(s: Option<string>)
  {
    s.Some? && s.value != ""
  }

  /** A JSON value. Object members keep their order of insertion, as
      `JSON.stringify` writes them. Numbers are exact reals. */
  datatype Json =
    | JNull
    | JBool(b: bool)
    | JNumber(n: real)
    | JString(str: string)
    | JArray(items: seq<Json>)
    | JObject(members: seq<(string, Json)>)

  /** The value of the first member named `key`, if any. */
  function Lookup(members: seq<(string, Json)>, key: string): (r: Option<Json>)
    ensures r.Some? <==> exists i :: 0 <= i < |members| && members[i].0 == key
    ensures r.Some? ==> exists i :: 0 <= i < |members| && members[i] == (key, r.value)
                                   && forall j :: 0 <= j < i ==> members[j].0 != key
  {
    if members == [] then None
    else if members[0].0 == key then Some(members[0].1)
    else
      var r := Lookup(members[1..], key);
      assert forall i :: 0 < i < |members| ==> members[i] == members[1..][i - 1];
      assert forall i :: 0 <= i < |members| - 1 ==> members[1..][i] == members[i + 1];
      r
  }

  /** Member `key` of a JSON object; nothing for other values. */
  function At(j: Json, key: string): Option<Json>
  {
    if j.JObject? then Lookup(j.members, key) else None
  }
}
