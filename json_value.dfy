/**
 * Values that travel as JSON: request bodies, query values and the `results`
 * payload of a response. JSON text encoding and parsing are not modelled; this
 * is the value on either side of them.
 */
module JsonValue {

  datatype Json =
    | Null
    | Bool(b: bool)
    | Num(n: int)
    | Str(s: string)
    | Arr(items: seq<Json>)
    | Obj(fields: map<string, Json>)

  /** Ruby truthiness: everything except nil and false. */
  predicate Truthy(j: Json) {
    !j.Null? && j != Bool(false)
  }

  /** `true.to_s` / `false.to_s`, as string interpolation renders a boolean. */
  function BoolText(b: bool): (s: string)
    ensures s == "true" || s == "false"
    ensures (s == "true") == b
  {
    if b then "true" else "false"
  }
}
