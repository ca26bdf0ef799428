/**
  The loosely typed JSON view of a transaction that the Go code works on after
  marshalling the SDK value and unmarshalling it into `map[string]any`.
  Only the shapes matter here; every accessor treats a shape mismatch as
  absence, as the Go type assertions `v, ok := x.(T)` do.
 */
module JsonValue {
  import opened Wrappers

  datatype Json =
    | JNull
    | JBool(b: bool)
    | JNumber(literal: string)
    | JString(s: string)
    | JArray(items: seq<Json>)
    | JObject(fields: map<string, Json>)

  type Object = map<string, Json>

  /** `v.(map[string]any)` */
  function AsObject(v: Json): Option<Object>
  {
    if v.JObject? then Some(v.fields) else None
  }

  /** `m[k].(map[string]any)`: a missing key reads as nil, which is not an object. */
  function ObjectField(m: Object, k: string): Option<Object>
  {
    if k in m then AsObject(m[k]) else None
  }

  /** `m[k].([]any)` */
  function ArrayField(m: Object, k: string): Option<seq<Json>>
  {
    if k in m && m[k].JArray? then Some(m[k].items) else None
  }

  /** `x, _ := m[k].(string)`: the empty string unless the key holds a string. */
  function StringField(m: Object, k: string): string
  {
    if k in m && m[k].JString? then m[k].s else ""
  }
}
