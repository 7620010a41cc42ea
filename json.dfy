/** Option and Result, the two failure wrappers the model uses. */
module Wrappers {

  datatype Option<+T> = None | Some(value: T)

  datatype Result<+T, +E> = Ok(value: T) | Err(error: E)
}

/**
 JSON values at the level `json.loads` hands them to Python: the text form and
 its parsing are outside the model. A JSON object is a `dict` keyed by strings.
 */
module Json {

  datatype Value =
    | JNull
    | JBool(b: bool)
    | JInt(i: int)
    | JFloat(x: real)
    | JStr(s: string)
    | JArr(items: seq<Value>)
    | JObj(fields: map<string, Value>)

  type Object = map<string, Value>

  /** Python's truthiness of the value `json.loads` produced for `v`. */
  predicate Truthy(v: Value) {
    match v
    case JNull => false
    case JBool(b) => b
    case JInt(i) => i != 0
    case JFloat(x) => x != 0.0
    case JStr(s) => s != []
    case JArr(items) => items != []
    case JObj(fields) => fields != map[]
  }

  /** `d.get(key, default)` */
  function Get(d: Object, key: string, default: Value): (v: Value) {
    if key in d then d[key] else default
  }

  /** 2 to the power n. */
  function Pow2(n: nat): nat {
    if n == 0 then 1 else 2 * Pow2(n - 1)
  }

  /**
   The smallest magnitude an `int` cannot be converted to a `float` at:
   from here on, rounding to the nearest double gives infinity and Python
   raises `OverflowError`.
   */
  const FloatOverflowBound: int := Pow2(1024) - Pow2(970)

  /** A number that float arithmetic accepts without raising: a bool, a float, or an int within the double range. */
  predicate ConvertsToFloat(v: Value) {
    v.JBool? || v.JFloat? || (v.JInt? && -FloatOverflowBound < v.i < FloatOverflowBound)
  }

  /** The values Python arithmetic accepts: `int`, `float` and `bool`. */
  predicate IsNumber(v: Value) {
    v.JBool? || v.JInt? || v.JFloat?
  }
}
