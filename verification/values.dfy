/** Values that cross the API boundary: request JSON and the dictionaries built by `to_dict`. */
module Values {

  import Wrappers

  /** A floating-point trend score. Scores are stored and copied, never computed, so any
      carrier of values works; `real` is used. */
  type Score = real

  /** A JSON value as decoded from a request body. Python's `bool` is a subclass of `int`,
      so `isinstance(v, int)` holds for `JBool` too: see `AsPyInt`. */
  datatype Json = JNull | JBool(b: bool) | JInt(i: int) | JStr(s: string) | JOther

  /** `isinstance(v, int)` in Python, with the integer value it stands for. */
  function AsPyInt(v: Json): (r: Wrappers.Option<int>)
    ensures v.JInt? ==> r == Wrappers.Some(v.i)
    ensures v.JBool? ==> r == Wrappers.Some(if v.b then 1 else 0)
    ensures r.Some? <==> (v.JInt? || v.JBool?)
  {
    match v
    case JInt(i) => Wrappers.Some(i)
    case JBool(b) => Wrappers.Some(if b then 1 else 0)
    case _ => Wrappers.None
  }

  /** Python truthiness of a JSON value. */
  predicate Truthy(v: Json) {
    match v
    case JNull => false
    case JBool(b) => b
    case JInt(i) => i != 0
    case JStr(s) => s != []
    case JOther => true
  }

  /** A value of a dictionary returned by `to_dict`. */
  datatype Value = Null | Int(i: int) | Str(s: string) | Float(f: Score)

  function OptInt(o: Wrappers.Option<int>): Value {
    if o.Some? then Int(o.value) else Null
  }

  function OptStr(o: Wrappers.Option<string>): Value {
    if o.Some? then Str(o.value) else Null
  }

  function OptScore(o: Wrappers.Option<Score>): Value {
    if o.Some? then Float(o.value) else Null
  }
}
