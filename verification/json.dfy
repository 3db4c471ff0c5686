/** JSON values as Python sees them after `s.json()`, with Python's notion
    of truthiness and of `value[key]`. */
module Json {
  import opened Base

  datatype Json =
    | Null
    | Bool(b: bool)
    | Num(n: real)
    | Str(s: string)
    | Array(items: seq<Json>)
    | Object(fields: map<string, Json>)

  /** `bool(value)` in Python: None, False, 0, "", [] and {} are false. */
  function Truthy(j: Json): (r: bool)
    ensures !r <==> j == Null || j == Bool(false) || j == Num(0.0) || j == Str("") || j == Array([]) || j == Object(map[])
  {
    match j
    case Null => false
    case Bool(b) => b
    case Num(n) => n != 0.0
    case Str(s) => s != ""
    case Array(items) => items != []
    case Object(fields) => fields != map[]
  }

  /** `value[key]` with a string key: only an object that holds the key answers. */
  function Index(j: Json, key: string): (r: Result<Json>)
    ensures r.Ok? <==> j.Object? && key in j.fields
    ensures r.Ok? ==> r.value == j.fields[key]
    ensures j.Object? && key !in j.fields ==> r == Raised(KeyMissing(key))
    ensures !j.Object? ==> r == Raised(NotSubscriptable)
  {
    match j
    case Object(fields) => if key in fields then Ok(fields[key]) else Raised(KeyMissing(key))
    case _ => Raised(NotSubscriptable)
  }

  /** `d.get(key, default)` on a dict `d`. */
  function GetOr(fields: map<string, Json>, key: string, default: Json): Json
  {
    if key in fields then fields[key] else default
  }
}
