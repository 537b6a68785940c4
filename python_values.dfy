/** The Python values that a parsed JSON request body can hold, and the
    pieces of Python semantics the handler relies on: truthiness, `dict.get`,
    `str()` and the exceptions those raise. */
module PythonValues {

  /** A value as `json.loads` returns it: `None`, a bool, a number, a str,
      a list or a dict. Numbers are kept as integers. */
  datatype JsonValue =
    | Null
    | Bool(b: bool)
    | Number(n: int)
    | String(s: string)
    | Array(items: seq<JsonValue>)
    | Object(fields: map<string, JsonValue>)

  /** Python's exceptions that the handler can raise. */
  datatype Exception =
    | ValueError      // the body is not valid JSON
    | AttributeError  // `.get` on a value that is not a dict

  datatype Result<T> = Ok(value: T) | Raised(error: Exception)

  /** Python truthiness: a value is truthy unless it is one of exactly six
      falsy values. */
  predicate Truthy(v: JsonValue): (b: bool)
    ensures !b <==>
      v == Null || v == Bool(false) || v == Number(0) || v == String("") ||
      v == Array([]) || v == Object(map[])
  {
    match v
    case Null => false
    case Bool(b) => b
    case Number(n) => n != 0
    case String(s) => s != ""
    case Array(items) => items != []
    case Object(fields) => fields != map[]
  }

  /** `v.get(key)`: the value under `key` or `None` on a dict; on any other
      value the attribute does not exist. */
  function Get(v: JsonValue, key: string): (r: Result<JsonValue>)
    ensures r.Raised? <==> !v.Object?
    ensures r.Raised? ==> r.error == AttributeError
    ensures v.Object? && key in v.fields ==> r == Ok(v.fields[key])
    ensures v.Object? && key !in v.fields ==> r == Ok(Null)
  {
    match v
    case Object(fields) => if key in fields then Ok(fields[key]) else Ok(Null)
    case _ => Raised(AttributeError)
  }

  /** Python's `str(v)`. On a str it is the str itself; on every other value
      it is left to `strOther`, which stands for Python's own formatting. */
  function Str(v: JsonValue, strOther: JsonValue -> string): (r: string)
    ensures v.String? ==> r == v.s
    ensures !v.String? ==> r == strOther(v)
  {
    if v.String? then v.s else strOther(v)
  }
}
