/**
 * Already-parsed JSON values as the feed delivers them, and the fragment of
 * Python's object semantics the receive paths rely on: truthiness,
 * subscripting a dict by a string key, `.keys()`, and subtracting a value
 * from a number.
 */
module Json {
  import opened Outcomes

  /** A decoded JSON value. Floating-point numbers are not modelled. */
  datatype Json =
    | JNull
    | JBool(b: bool)
    | JInt(i: int)
    | JStr(s: string)
    | JList(items: seq<Json>)
    | JObj(fields: map<string, Json>)

  /** Python's `bool(v)` on the value `json.loads` produced. */
  predicate Truthy(v: Json)
  {
    match v
    case JNull => false
    case JBool(b) => b
    case JInt(i) => i != 0
    case JStr(s) => s != ""
    case JList(xs) => xs != []
    case JObj(m) => m != map[]
  }

  /** Python's `v[key]` for a string key. */
  function Lookup(v: Json, key: string): (r: Result<Json, Fault>)
    ensures r.Success? <==> v.JObj? && key in v.fields
    ensures r.Success? ==> r.value == v.fields[key]
    ensures r.Failure? ==> r.error == (if v.JObj? then KeyError(key) else TypeError)
  {
    match v
    case JObj(m) => if key in m then Success(m[key]) else Failure(KeyError(key))
    case _ => Failure(TypeError)
  }

  /**
   * The integer `v` stands for in `t - v`: an int, or a bool (a subclass of
   * int in Python, so True is 1); anything else makes the subtraction raise.
   */
  function Numeric(v: Json): (r: Option<int>)
    ensures r.Some? <==> v.JInt? || v.JBool?
    ensures v.JInt? ==> r == Some(v.i)
  {
    match v
    case JInt(i) => Some(i)
    case JBool(b) => Some(if b then 1 else 0)
    case _ => None
  }
}
