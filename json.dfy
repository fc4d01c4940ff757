/** The dynamically typed values that flow through the tools: decoded JSON
    (tool arguments, request bodies, API responses) with Python's truthiness,
    plus raw bytes. */
module Json {
  import opened Wrappers
  import opened Strings

  newtype byte = x: int | 0 <= x < 256

  /** A JSON value as Python holds it after `json.loads`. */
  datatype Value =
    | Null
    | Bool(b: bool)
    | Int(i: int)
    | Float(x: real)
    | Str(s: string)
    | Array(items: seq<Value>)
    | Object(fields: map<string, Value>)

  /** Python's `bool(v)`: `None`, `False`, `0`, `0.0`, `""`, `[]` and `{}` are false. */
  predicate Truthy(v: Value) {
    match v
    case Null => false
    case Bool(b) => b
    case Int(i) => i != 0
    case Float(x) => x != 0.0
    case Str(s) => s != ""
    case Array(items) => items != []
    case Object(fields) => fields != map[]
  }

  /** `type(v).__name__`, as it appears in Python's error messages. */
  function TypeName(v: Value): string {
    match v
    case Null => "NoneType"
    case Bool(_) => "bool"
    case Int(_) => "int"
    case Float(_) => "float"
    case Str(_) => "str"
    case Array(_) => "list"
    case Object(_) => "dict"
  }

  /** `args.get(key, default)`: a key that is present wins, even when it holds `None`. */
  function Get(args: map<string, Value>, key: string, default: Value): (v: Value)
    ensures key in args ==> v == args[key]
    ensures key !in args ==> v == default
  {
    if key in args then args[key] else default
  }

  /** `args.get(key, None)` is not None. */
  predicate Given(args: map<string, Value>, key: string) {
    key in args && args[key] != Null
  }

  /** The message of the AttributeError Python raises for `v.attr` on a non-string. */
  function NoAttribute(v: Value, attr: string): string {
    "'" + TypeName(v) + "' object has no attribute '" + attr + "'"
  }

  /** `args.get(key, "").strip()`: a missing key reads as the empty string, a
      string is stripped, and any other value (even an explicit `None`) has no
      `strip` and raises. */
  function GetStripped(args: map<string, Value>, key: string): (r: Result<string>)
    ensures key !in args ==> r == Ok("")
    ensures key in args && args[key].Str? ==> r == Ok(Strip(args[key].s))
    ensures key in args && !args[key].Str? ==> r == Err(NoAttribute(args[key], "strip"))
  {
    match Get(args, key, Str(""))
    case Str(s) => Ok(Strip(s))
    case v => Err(NoAttribute(v, "strip"))
  }
}
