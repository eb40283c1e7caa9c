// Values produced by `json.loads` and the few Python operations the service
// applies to them: truthiness, `dict.get`, `in`, `len` and `str`.
module Json {
  import opened Wrappers
  import opened Text

  /** A decoded JSON value; numbers are integers here. */
  datatype Json =
    | JNull
    | JBool(b: bool)
    | JInt(i: int)
    | JStr(s: string)
    | JArr(items: seq<Json>)
    | JObj(fields: map<string, Json>)

  /** Python truthiness (`if value:`). */
  predicate Truthy(j: Json) {
    match j
    case JNull => false
    case JBool(b) => b
    case JInt(i) => i != 0
    case JStr(s) => s != []
    case JArr(xs) => xs != []
    case JObj(m) => m != map[]
  }

  /** `type(v).__name__` of a decoded value. */
  function TypeName(v: Json): string {
    match v
    case JNull => "NoneType"
    case JBool(_) => "bool"
    case JInt(_) => "int"
    case JStr(_) => "str"
    case JArr(_) => "list"
    case JObj(_) => "dict"
  }

  /** `d.get(key, default)` */
  function Get(m: map<string, Json>, key: string, default: Json): Json {
    if key in m then m[key] else default
  }

  /** `needle in container` for a string needle; `None` where Python raises `TypeError`. */
  function PyIn(needle: string, container: Json): Option<bool> {
    match container
    case JArr(xs) => Some(JStr(needle) in xs)
    case JObj(m) => Some(needle in m)
    case JStr(s) => Some(Contains(s, needle))
    case _ => None
  }

  /** Whether `len(value)` is defined. */
  predicate HasLen(j: Json) {
    j.JStr? || j.JArr? || j.JObj?
  }

  /** `str(value)` for scalars; containers are rendered by a fixed placeholder. */
  function PyStr(j: Json): string {
    match j
    case JNull => "None"
    case JBool(b) => if b then "True" else "False"
    case JInt(i) => IntToString(i)
    case JStr(s) => s
    case JArr(_) => "[...]"
    case JObj(_) => "{...}"
  }
}
