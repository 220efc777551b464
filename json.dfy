/**
 * JSON values as the client sees them after `response.json()` or a session
 * load.  Python's `None` and JSON `null` are the same object, so `JNull` also
 * stands for an unset `current_seller` / `current_product`.
 */
module Json {
  import opened Wrappers

  datatype Json =
    | JNull
    | JBool(b: bool)
    | JNumber(n: real)
    | JString(s: string)
    | JArray(items: seq<Json>)
    | JObject(fields: map<string, Json>)

  /** Python truthiness: `None`, `False`, `0`, `""`, `[]` and `{}` are falsy. */
  predicate Truthy(j: Json) {
    match j
    case JNull => false
    case JBool(b) => b
    case JNumber(n) => n != 0.0
    case JString(s) => s != ""
    case JArray(items) => items != []
    case JObject(fields) => fields != map[]
  }

  /** The exception `value[key]` raises when it does not produce a value. */
  datatype IndexError = KeyError(key: string) | TypeError

  /**
   * `value[key]` on a decoded JSON value: a dict yields the entry or raises
   * `KeyError`; every other JSON value (None, bool, number, str, list) is not
   * subscriptable by a string and raises `TypeError`.
   */
  function Index(j: Json, key: string): (r: Result<Json, IndexError>)
    ensures r.Ok? <==> j.JObject? && key in j.fields
    ensures r.Ok? ==> r.value == j.fields[key]
    ensures r.Err? && j.JObject? ==> r.error == KeyError(key)
    ensures r.Err? && !j.JObject? ==> r.error == TypeError
  {
    match j
    case JObject(fields) => if key in fields then Ok(fields[key]) else Err(KeyError(key))
    case _ => Err(TypeError)
  }

  /** `dict.get(key, default)` on a value already known to be a dict. */
  function GetOr(fields: map<string, Json>, key: string, default: Json): (r: Json)
    ensures key in fields ==> r == fields[key]
    ensures key !in fields ==> r == default
  {
    if key in fields then fields[key] else default
  }
}
