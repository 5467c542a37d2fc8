/** Decoded JSON values as the Python hosts see them after `json.loads`.
    Text encoding and decoding themselves are not part of this model: where
    a handler parses a line, the parser is a parameter of the handler. */
module Json {
  import opened Common

  datatype Json =
    | JNull
    | JBool(b: bool)
    | JInt(i: int)
    | JStr(s: string)
    | JArr(items: seq<Json>)
    | JObj(fields: map<string, Json>)

  /** `d[key]` on a decoded value: None where Python raises (not a dict, or
      no such key). */
  function Field(j: Json, key: string): (r: Option<Json>)
    ensures r.Some? <==> j.JObj? && key in j.fields
    ensures r.Some? ==> r.value == j.fields[key]
  {
    if j.JObj? && key in j.fields then Some(j.fields[key]) else None
  }

  /** `d.get(key, default)` on a dict. */
  function GetOr(fields: map<string, Json>, key: string, default: Json): (r: Json)
    ensures key in fields ==> r == fields[key]
    ensures key !in fields ==> r == default
  {
    if key in fields then fields[key] else default
  }

  /** Python truthiness of a decoded value, as `payload.get("active")` is
      checked in `if payload.get("active", False):`. */
  predicate Truthy(j: Json) {
    match j
    case JNull => false
    case JBool(b) => b
    case JInt(i) => i != 0
    case JStr(s) => s != []
    case JArr(items) => items != []
    case JObj(fields) => fields != map[]
  }
}
