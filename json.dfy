/**
 * JSON values as the Flask handlers see them after `request.get_json()` and
 * `res.json()`, together with the few Python operations the handlers apply to
 * them: truthiness (`if not x`), `dict.get`, and subscripting with `[key]` and `[0]`.
 */
module Json {
  import opened Wrappers

  /** A decoded JSON document. Numbers are integers; see README for floats. */
  datatype Json =
    | JNull
    | JBool(b: bool)
    | JNum(n: int)
    | JStr(s: string)
    | JArr(items: seq<Json>)
    | JObj(fields: map<string, Json>)

  /** Python truthiness of the decoded value: None, False, 0, "", [] and {} are false. */
  predicate Truthy(j: Json)
    ensures Truthy(j) <==> j !in {JNull, JBool(false), JNum(0), JStr(""), JArr([]), JObj(map[])}
  {
    match j
    case JNull => false
    case JBool(b) => b
    case JNum(n) => n != 0
    case JStr(s) => |s| > 0
    case JArr(items) => |items| > 0
    case JObj(fields) => |fields| > 0
  }

  /** `d.get(key, default)` on a dict. */
  function Get(fields: map<string, Json>, key: string, default: Json): (v: Json)
    ensures key in fields ==> v == fields[key]
    ensures key !in fields ==> v == default
  {
    if key in fields then fields[key] else default
  }

  /**
   * `j[key]` with a string key: defined on a dict holding the key; a missing
   * key (KeyError) or a value that is not a dict (TypeError) gives None.
   */
  function Field(j: Json, key: string): (r: Option<Json>)
    ensures r.Some? <==> j.JObj? && key in j.fields
    ensures r.Some? ==> r.value == j.fields[key]
  {
    match j
    case JObj(fields) => if key in fields then Some(fields[key]) else None
    case _ => None
  }

  /**
   * `j[0]`: the first element of a non-empty list, or the first character of a
   * non-empty string (as a one-character string). An empty list or string
   * (IndexError), a dict (its keys are strings, so KeyError) and a scalar
   * (TypeError) give None.
   */
  function First(j: Json): (r: Option<Json>)
    ensures r.Some? <==> (j.JArr? && |j.items| > 0) || (j.JStr? && |j.s| > 0)
    ensures r.Some? && j.JArr? ==> r.value == j.items[0]
    ensures r.Some? && j.JStr? ==> r.value == JStr([j.s[0]])
  {
    match j
    case JArr(items) => if |items| > 0 then Some(items[0]) else None
    case JStr(s) => if |s| > 0 then Some(JStr([s[0]])) else None
    case _ => None
  }
}
