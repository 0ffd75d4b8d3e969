/**
 * Python values as `json.loads` / `pydantic_core.from_json` produce them, and the
 * few Python behaviours the bridge relies on: `dict.get` and truthiness.
 */
module PyJson {
  import opened Wrappers

  /**
   * A decoded JSON value. An object keeps its fields in document order, as a
   * Python dict keeps insertion order. Non-integral numbers are not modelled.
   */
  datatype Json =
    | JNull
    | JBool(b: bool)
    | JInt(i: int)
    | JStr(s: string)
    | JArr(items: seq<Json>)
    | JObj(fields: seq<(string, Json)>)

  type JsonObject = seq<(string, Json)>

  /**
   * A JSON decoder whose grammar is not part of this model: None stands for the
   * `ValueError` (or `json.JSONDecodeError`) it raises on malformed text.
   */
  type JsonParser = string -> Option<Json>

  /** `d.get(key)`: the value of the first field named `key`, None when there is none. */
  function Get(fields: JsonObject, key: string): (r: Option<Json>)
    ensures r.None? <==> forall i :: 0 <= i < |fields| ==> fields[i].0 != key
    ensures r.Some? ==> exists i :: 0 <= i < |fields| && fields[i] == (key, r.value)
  {
    if fields == [] then None
    else if fields[0].0 == key then Some(fields[0].1)
    else Get(fields[1..], key)
  }

  /** `d.get(key, default)`. */
  function GetOr(fields: JsonObject, key: string, default: Json): Json {
    Get(fields, key).GetOr(default)
  }

  /** Python's `bool(v)`: None, False, 0 and empty containers are falsy. */
  predicate Truthy(j: Json) {
    match j
    case JNull => false
    case JBool(b) => b
    case JInt(i) => i != 0
    case JStr(s) => |s| > 0
    case JArr(items) => |items| > 0
    case JObj(fields) => |fields| > 0
  }
}
