/** The values a decoded plan is made of, as the Python code sees them after
    `json.loads`, and the few pieces of Python's runtime the orchestration
    core depends on: the type names that appear in exception messages,
    `str()` of the hashable scalars, `dict.get`, and string prefix and
    suffix tests. */
module PyValues {

  datatype Option<+T> = None | Some(value: T)

  /** The outcome of a Python call: a value, or an exception whose `str()`
      is `error`. */
  datatype Outcome<+T> = Ok(value: T) | Raised(error: string)

  /** A JSON value as `json.loads` hands it to Python: null is `None`,
      arrays are lists and objects are dicts. Numbers are integers here. */
  datatype JValue =
    | JNull
    | JBool(b: bool)
    | JNumber(n: int)
    | JString(s: string)
    | JArray(items: seq<JValue>)
    | JObject(fields: map<string, JValue>)

  /** The name Python gives the type of a decoded value (`type(v).__name__`). */
  function TypeName(v: JValue): string
  {
    match v
    case JNull => "NoneType"
    case JBool(_) => "bool"
    case JNumber(_) => "int"
    case JString(_) => "str"
    case JArray(_) => "list"
    case JObject(_) => "dict"
  }

  /** Lists and dicts cannot be dictionary keys; every other value can. */
  predicate Hashable(v: JValue)
  {
    !v.JArray? && !v.JObject?
  }

  function DigitChar(d: nat): char
    requires d < 10
  {
    "0123456789"[d]
  }

  /** Decimal digits of a natural number, as `str()` writes them. */
  function Digits(n: nat): string
  {
    if n < 10 then [DigitChar(n)] else Digits(n / 10) + [DigitChar(n % 10)]
  }

  /** `str(v)` (what an f-string inserts) for the hashable values. */
  function PyStr(v: JValue): string
    requires Hashable(v)
  {
    match v
    case JNull => "None"
    case JBool(b) => if b then "True" else "False"
    case JNumber(n) => if n < 0 then "-" + Digits(-n) else Digits(n)
    case JString(s) => s
  }

  /** `d.get(key, default)`. */
  function Get(d: map<string, JValue>, key: string, default: JValue): JValue
  {
    if key in d then d[key] else default
  }

  /** `s.startswith(p)`. */
  predicate StartsWith(s: string, p: string)
  {
    |p| <= |s| && s[..|p|] == p
  }

  /** `s.endswith(p)`. */
  predicate EndsWith(s: string, p: string)
  {
    |p| <= |s| && s[|s| - |p|..] == p
  }

  /** Python's truth value of an optional string argument (`if titolo:`). */
  predicate Truthy(o: Option<string>)
  {
    o.Some? && o.value != ""
  }

  function Max(a: int, b: int): int
  {
    if a < b then b else a
  }
}
