/**
  The Python values a JSON request body decodes to, and the three things the
  handlers do with them: test their truthiness (`if not x`), look a key up in a
  dict (`data.get(key)`, `data.get(key, default)`), and format them into text
  (`f"...{x}..."`).
 */
module Values {
  import PyInt

  /** A decoded JSON value. Objects are dicts keyed by strings; the numbers
      carried are integers only. */
  datatype Json =
    | JNull
    | JBool(b: bool)
    | JInt(i: int)
    | JString(s: string)
    | JArray(items: seq<Json>)
    | JObject(fields: map<string, Json>)

  /** Python truthiness: None, False, 0, "", [] and {} are false. */
  predicate Truthy(v: Json) {
    match v
    case JNull => false
    case JBool(b) => b
    case JInt(i) => i != 0
    case JString(s) => s != ""
    case JArray(items) => items != []
    case JObject(fields) => fields != map[]
  }

  /** `d.get(key, default)`. */
  function GetOr(d: map<string, Json>, key: string, default: Json): Json {
    if key in d then d[key] else default
  }

  /** `d.get(key)`: None for a missing key. */
  function Get(d: map<string, Json>, key: string): Json {
    GetOr(d, key, JNull)
  }

  /** `str(v)`, as an f-string shows `v`. Lists and dicts are shown by Python's
      `repr`, which is given as the parameter `repr`. */
  function Show(v: Json, repr: Json -> string): string {
    match v
    case JNull => "None"
    case JBool(b) => if b then "True" else "False"
    case JInt(i) => PyInt.Str(i)
    case JString(s) => s
    case JArray(_) => repr(v)
    case JObject(_) => repr(v)
  }
}
