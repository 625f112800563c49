/** Parsed JSON values, as `JSON.parse` / `response.json()` hand them to the application. */
module JsonValues {
  import opened Wrappers

  datatype Json =
    | JNull
    | JBool(b: bool)
    | JNum(n: real)
    | JStr(s: string)
    | JArr(items: seq<Json>)
    | JObj(fields: map<string, Json>)

  /** JavaScript truthiness of a parsed value (NaN does not occur in parsed JSON). */
  predicate Truthy(j: Json)
  {
    match j
    case JNull => false
    case JBool(b) => b
    case JNum(n) => n != 0.0
    case JStr(s) => s != ""
    case JArr(_) => true
    case JObj(_) => true
  }

  /** `value.key` on a non-null value: the field of an object, `undefined` otherwise. */
  function Field(j: Json, key: string): (r: Option<Json>)
    ensures r.Some? <==> j.JObj? && key in j.fields
    ensures r.Some? ==> r.value == j.fields[key]
  {
    if j.JObj? && key in j.fields then Some(j.fields[key]) else None
  }

  /** `value || []`. */
  function OrEmptyArray(v: Option<Json>): (r: Json)
    ensures v.Some? && Truthy(v.value) ==> r == v.value
    ensures !(v.Some? && Truthy(v.value)) ==> r == JArr([])
    ensures Truthy(r)
  {
    if v.Some? && Truthy(v.value) then v.value else JArr([])
  }

  function Numbers(xs: seq<real>): (r: seq<Json>)
    ensures |r| == |xs| && forall i :: 0 <= i < |xs| ==> r[i] == JNum(xs[i])
  {
    seq(|xs|, i requires 0 <= i < |xs| => JNum(xs[i]))
  }
}
