/** Values shared by the plugin layer and the web handler: optional values,
    results carrying a Python exception, metric values and the JSON shape
    that handlers hand to the web layer. */
module Common {

  datatype Option<+T> = None | Some(value: T)

  /** Either the value an operation returns or the exception it raises. */
  datatype Result<+T> = Success(value: T) | Failure(error: Exception)

  /** The Python exceptions the core raises, each with its message. */
  datatype Exception =
    | TypeError(msg: string)
    | ValueError(msg: string)
    | KeyError(msg: string)
    | AssertionError(msg: string)
    | RuntimeWarning(msg: string)
    | NotImplementedError(msg: string)

  /** An instant (a `datetime`); only its order is used by the core. */
  type Time = int

  /** A stored metric value. Integer metrics carry their value; float
      metrics are kept opaque (the core never computes with them). */
  datatype Value = IntValue(i: int) | FloatValue(f: real)

  /** The JSON-compatible Python values the handlers build (dicts, lists,
      strings, numbers, booleans and None). A Python int has the one
      encoding `JInt`, wherever it comes from; a float is `JFloat`. */
  datatype Json =
    | JNull
    | JBool(b: bool)
    | JInt(i: int)
    | JStr(s: string)
    | JFloat(f: real)
    | JList(items: seq<Json>)
    | JObject(members: map<string, Json>)

  /** A stored value as the JSON number it is served as. */
  function ValueJson(v: Value): (j: Json)
    ensures v.IntValue? <==> j.JInt?
    ensures v.IntValue? ==> j.i == v.i
    ensures v.FloatValue? ==> j == JFloat(v.f)
  {
    match v
    case IntValue(i) => JInt(i)
    case FloatValue(f) => JFloat(f)
  }
}
