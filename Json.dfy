/** Parsed JSON values as Python sees them after `json.loads`, and the few dict and truth
    operations the post-processing code applies to them. */
module Json {
  import opened Common

  /** A decoded JSON value; numbers are the integers the payloads carry. */
  datatype Json =
    | JNull
    | JBool(b: bool)
    | JNum(n: int)
    | JStr(s: string)
    | JArr(items: seq<Json>)
    | JObj(fields: map<string, Json>)

  /** Python truthiness of the decoded value. */
  predicate Truthy(j: Json) {
    match j
    case JNull => false
    case JBool(b) => b
    case JNum(n) => n != 0
    case JStr(s) => s != ""
    case JArr(items) => items != []
    case JObj(fields) => fields != map[]
  }

  /** `d.get(key, default)` on a dict. */
  function GetOr(fields: map<string, Json>, key: string, default: Json): (r: Json)
    ensures key in fields ==> r == fields[key]
    ensures key !in fields ==> r == default
  {
    if key in fields then fields[key] else default
  }

  /** `d.get(key)`: None (JNull) when the key is missing. */
  function Get(fields: map<string, Json>, key: string): (r: Json)
    ensures key !in fields ==> r == JNull
  {
    GetOr(fields, key, JNull)
  }

  /** Python's `value == n` for a decoded value and an int: `True == 1` and `False == 0` hold too. */
  predicate EqualsInt(j: Json, n: int) {
    match j
    case JNum(m) => m == n
    case JBool(b) => if b then n == 1 else n == 0
    case _ => false
  }

  /** `json.dumps`-side encoding of an optional string: the string, or null. */
  function OptStr(o: Option<string>): (r: Json)
    ensures o.None? <==> r == JNull
  {
    match o
    case Some(s) => JStr(s)
    case None => JNull
  }
}
