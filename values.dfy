/**
  Dynamic values exchanged between the measuring wrappers, the benchmark driver, the web
  app and the editor extensions. Python dictionaries and JSON payloads are both `Json`;
  Python's `None` and JSON's `null` are both `JNull`.
 */
module Values {
  import opened Wrappers

  datatype Json =
    | JNull
    | JBool(b: bool)
    | JNum(n: real)
    | JStr(s: string)
    | JArr(items: seq<Json>)
    | JObj(fields: map<string, Json>)

  /** Python truthiness: None, False, 0, "", [] and {} are false. */
  predicate PyTruthy(v: Json) {
    match v
    case JNull => false
    case JBool(b) => b
    case JNum(n) => n != 0.0
    case JStr(s) => s != ""
    case JArr(a) => a != []
    case JObj(m) => m != map[]
  }

  /** The six falsy values of Python. */
  lemma LemmaPyFalsy(v: Json)
    ensures !PyTruthy(v) <==> v == JNull || v == JBool(false) || v == JNum(0.0) || v == JStr("")
                              || v == JArr([]) || v == JObj(map[])
  {
  }

  /** Python's `a or b`: the first operand when it is truthy, the second one otherwise. */
  function PyOr(a: Json, b: Json): (r: Json)
    ensures PyTruthy(a) ==> r == a
    ensures !PyTruthy(a) ==> r == b
  {
    if PyTruthy(a) then a else b
  }

  /** Python's `d.get(k)`: the stored value, or None when the key is missing. A value that is
      not a dictionary has no entries. */
  function PyGet(d: Json, k: string): (r: Json)
    ensures d.JObj? && k in d.fields ==> r == d.fields[k]
    ensures !(d.JObj? && k in d.fields) ==> r == JNull
  {
    if d.JObj? && k in d.fields then d.fields[k] else JNull
  }

  /** A Python float-or-None field value. */
  function OptNum(x: Option<real>): (r: Json)
    ensures x.None? <==> r == JNull
    ensures x.Some? ==> r == JNum(x.value)
  {
    if x.Some? then JNum(x.value) else JNull
  }

  /** A Python str-or-None field value. */
  function OptStr(x: Option<string>): (r: Json)
    ensures x.None? <==> r == JNull
    ensures x.Some? ==> r == JStr(x.value)
  {
    if x.Some? then JStr(x.value) else JNull
  }

  /** `isinstance(v, (int, float))` together with the number: a bool is an int in Python. */
  function PyNumber(v: Json): (r: Option<real>)
    ensures r.Some? <==> v.JNum? || v.JBool?
    ensures v.JNum? ==> r == Some(v.n)
    ensures v.JBool? ==> r == Some(if v.b then 1.0 else 0.0)
  {
    match v
    case JNum(n) => Some(n)
    case JBool(b) => Some(if b then 1.0 else 0.0)
    case _ => None
  }

  /** Python `float(v)` on a value other than None, with `toFloat` standing for the parse of
      a string; None means that `float` raises. */
  function PyFloat(v: Json, toFloat: string -> Option<real>): (r: Option<real>)
    ensures v.JNum? ==> r == Some(v.n)
    ensures v.JStr? ==> r == toFloat(v.s)
    ensures v.JBool? ==> r == Some(if v.b then 1.0 else 0.0)
    ensures v.JNull? || v.JArr? || v.JObj? ==> r.None?
  {
    match v
    case JNum(n) => Some(n)
    case JBool(b) => Some(if b then 1.0 else 0.0)
    case JStr(s) => toFloat(s)
    case _ => None
  }

  /** JavaScript truthiness of a parsed value (objects and arrays are true even when empty). */
  predicate JsTruthy(v: Json) {
    match v
    case JNull => false
    case JBool(b) => b
    case JNum(n) => n != 0.0
    case JStr(s) => s != ""
    case JArr(_) => true
    case JObj(_) => true
  }

  /** Python and JavaScript truthiness differ exactly on the empty list and the empty
      dictionary, which only JavaScript counts as true. */
  lemma LemmaTruthinessDiffers(v: Json)
    ensures PyTruthy(v) != JsTruthy(v) <==> v == JArr([]) || v == JObj(map[])
    ensures PyTruthy(v) ==> JsTruthy(v)
  {
  }

  /** JavaScript property read `v[k]`; None stands for `undefined`. Only reading a property
      of `null` throws, which is decided by the caller. */
  function JsProp(v: Json, k: string): (r: Option<Json>)
    ensures r.Some? <==> v.JObj? && k in v.fields
    ensures r.Some? ==> r.value == v.fields[k]
  {
    if v.JObj? && k in v.fields then Some(v.fields[k]) else None
  }
}
