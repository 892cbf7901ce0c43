/** JSON-like values as the front end and the backend pass them around: request
    payloads, form configurations, deployment records and push messages are all
    string-keyed objects whose fields are read with JavaScript truthiness or with
    Python's `dict.get`. */
module Json {

  datatype Option<+T> = None | Some(value: T) {
    /** The value, or `d` when absent (`x || d` / `x ?? d`). */
    function GetOr(d: T): T {
      match this
      case Some(v) => v
      case None => d
    }
  }

  /** A JSON value. Numbers are integers; fractions are not modelled. */
  datatype Value =
    | Null
    | Bool(b: bool)
    | Num(n: int)
    | Str(s: string)
    | Arr(items: seq<Value>)
    | Obj(fields: map<string, Value>)

  type Object = map<string, Value>

  /** JavaScript truthiness: `null`, `false`, `0` and `""` are falsy; arrays and
      objects (even empty ones) are truthy. */
  predicate Truthy(v: Value) {
    match v
    case Null => false
    case Bool(b) => b
    case Num(n) => n != 0
    case Str(s) => s != ""
    case Arr(_) => true
    case Obj(_) => true
  }

  /** `o.k` used as a condition: an absent key reads as `undefined`, which is falsy. */
  predicate FieldTruthy(o: Object, k: string) {
    k in o && Truthy(o[k])
  }

  /** Python's `o.get(k, d)`. */
  function GetOr(o: Object, k: string, d: Value): (r: Value)
    ensures k in o ==> r == o[k]
    ensures k !in o ==> r == d
  {
    if k in o then o[k] else d
  }

  /** The string held by field `k`, if the field is a string. */
  function StrField(o: Object, k: string): Option<string> {
    if k in o && o[k].Str? then Some(o[k].s) else None
  }

  /** JavaScript `o.k || d` for a string default. */
  function StrOr(o: Object, k: string, d: string): (r: string)
    ensures FieldTruthy(o, k) && o[k].Str? ==> r == o[k].s
    ensures !FieldTruthy(o, k) ==> r == d
  {
    if FieldTruthy(o, k) && o[k].Str? then o[k].s else d
  }
}
