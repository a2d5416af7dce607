/**
 * Decoded JSON values, as the Swift code sees them after `JSONSerialization`
 * (`[String: Any]`) and the Go code after `json.Decode`. Encoding and parsing
 * text are not modelled: decoding is given as an input wherever it happens.
 */
module Json {
  import opened Wrappers

  datatype Json =
    | JNull
    | JBool(b: bool)
    | JNum(n: int)
    | JStr(s: string)
    | JArr(items: seq<Json>)
    | JObj(fields: map<string, Json>)

  /** `obj[key] as? String`. */
  function GetString(j: Json, key: string): (r: Option<string>)
    ensures r.Some? <==> j.JObj? && key in j.fields && j.fields[key].JStr?
    ensures r.Some? ==> j.fields[key] == JStr(r.value)
  {
    if j.JObj? && key in j.fields && j.fields[key].JStr? then Some(j.fields[key].s) else None
  }

  /** `obj[key] as? Bool`. */
  function GetBool(j: Json, key: string): (r: Option<bool>)
    ensures r.Some? <==> j.JObj? && key in j.fields && j.fields[key].JBool?
    ensures r.Some? ==> j.fields[key] == JBool(r.value)
  {
    if j.JObj? && key in j.fields && j.fields[key].JBool? then Some(j.fields[key].b) else None
  }

  /** `obj[key] as? [String: Any]`. */
  function GetObject(j: Json, key: string): (r: Option<Json>)
    ensures r.Some? <==> j.JObj? && key in j.fields && j.fields[key].JObj?
    ensures r.Some? ==> r.value == j.fields[key] && r.value.JObj?
  {
    if j.JObj? && key in j.fields && j.fields[key].JObj? then Some(j.fields[key]) else None
  }

  /** `obj[key] as? [[String: Any]]`: an array whose items are all objects. */
  function GetObjectArray(j: Json, key: string): (r: Option<seq<Json>>)
    ensures r.Some? <==> j.JObj? && key in j.fields && j.fields[key].JArr?
                         && forall k :: 0 <= k < |j.fields[key].items| ==> j.fields[key].items[k].JObj?
    ensures r.Some? ==> r.value == j.fields[key].items
  {
    if j.JObj? && key in j.fields && j.fields[key].JArr?
       && forall k :: 0 <= k < |j.fields[key].items| ==> j.fields[key].items[k].JObj?
    then Some(j.fields[key].items)
    else None
  }

  /** An object with string members only, as the Swift code writes its requests. */
  function StrObject(m: map<string, string>): (j: Json)
    ensures j.JObj? && j.fields.Keys == m.Keys
    ensures forall k :: k in m ==> GetString(j, k) == Some(m[k])
  {
    JObj(map k | k in m :: JStr(m[k]))
  }
}
