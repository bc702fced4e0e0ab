/** Request bodies as Flask's `get_json()` decodes them, with the Python
    truth test the route handlers apply to them. */
module Json {
  import opened Common

  datatype Json =
    | JNull
    | JBool(b: bool)
    | JNum(n: real)
    | JStr(s: string)
    | JArray(items: seq<Json>)
    | JObject(fields: map<string, Json>)

  /** Python's truth value of the decoded object: `None`, `False`, zero and
      empty strings, lists and dicts are false. */
  function Truthy(j: Json): (r: bool)
    ensures !r <==> j in {JNull, JBool(false), JNum(0.0), JStr(""), JArray([]), JObject(map[])}
  {
    match j
    case JNull => false
    case JBool(b) => b
    case JNum(n) => n != 0.0
    case JStr(s) => s != ""
    case JArray(items) => items != []
    case JObject(fields) => fields != map[]
  }

  /** `data.get(key, default)` on a decoded object: the value under `key`, or
      `default` when the key is absent. Other values have no `get`. */
  function Get(j: Json, key: string, default: Json): (r: Option<Json>)
    ensures r.None? <==> !j.JObject?
    ensures j.JObject? && key in j.fields ==> r == Some(j.fields[key])
    ensures j.JObject? && key !in j.fields ==> r == Some(default)
  {
    match j
    case JObject(fields) => Some(if key in fields then fields[key] else default)
    case _ => None
  }
}
