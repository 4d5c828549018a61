/** Schema-less JSON values as the transform sees them after `requests`
    has parsed the response, together with the Python operations the
    transform applies to them: truthiness, `dict.get`, the `or` operator
    and `str()`. */
module Json {
  import opened Text

  /** A parsed JSON value. Objects are maps from keys to values; numbers
      are integers (credits are passed through untouched, so no
      arithmetic on them is needed). */
  datatype JValue =
    | JNull
    | JBool(b: bool)
    | JInt(i: int)
    | JStr(s: string)
    | JList(items: seq<JValue>)
    | JObj(fields: map<string, JValue>)

  type Obj = map<string, JValue>

  /** Python truthiness: `None`, `False`, `0`, `""`, `[]` and `{}` are false,
      everything else is true. */
  predicate Truthy(v: JValue) {
    match v
    case JNull => false
    case JBool(b) => b
    case JInt(i) => i != 0
    case JStr(s) => s != []
    case JList(items) => items != []
    case JObj(fields) => |fields| != 0
  }

  /** `o.get(k)`: the value under `k`, or `None` when the key is absent. */
  function Get(o: Obj, k: string): JValue {
    if k in o then o[k] else JNull
  }

  /** `o.get(k, d)`. */
  function GetOr(o: Obj, k: string, d: JValue): JValue {
    if k in o then o[k] else d
  }

  /** Python's `a or b`: `a` when it is truthy, otherwise `b`. */
  function OrElse(a: JValue, b: JValue): JValue {
    if Truthy(a) then a else b
  }

  /** Python's `str(v)`, which is also what an f-string interpolates:
      strings as they are, integers in decimal, `None`, `True`, `False`.
      Non-empty lists and objects get a fixed placeholder. */
  function PyStr(v: JValue): string {
    match v
    case JNull => "None"
    case JBool(b) => if b then "True" else "False"
    case JInt(i) => IntToDecimal(i)
    case JStr(s) => s
    case JList(items) => if items == [] then "[]" else "[...]"
    case JObj(fields) => if |fields| == 0 then "{}" else "{...}"
  }

  /** `str()` keeps a string as it is and renders an integer as a decimal
      text that reads back as the same integer. */
  lemma PyStrText(v: JValue)
    ensures v.JStr? ==> PyStr(v) == v.s
    ensures v.JInt? ==> DecimalValue(PyStr(v)) == v.i
  {
    if v.JInt? {
      DecimalRoundTrip(v.i);
    }
  }
}
