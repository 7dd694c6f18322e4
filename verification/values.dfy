/**
 * The slice of Python's object model that the client and the server touch:
 * values as `yaml.safe_load` produces them and as tool arguments arrive,
 * their truthiness, and the exceptions raised by `dict.get`, subscripting
 * and indexing when a value has the wrong shape.
 */
module Values {
  import opened Wrappers

  /** A parsed YAML/JSON value. Mapping keys are strings; floats are not modelled. */
  datatype Value =
    | Null
    | Bool(b: bool)
    | Int(i: int)
    | Str(s: string)
    | List(items: seq<Value>)
    | Dict(entries: map<string, Value>)

  /** Python truthiness: `None`, `False`, `0` and empty containers are false. */
  predicate Truthy(v: Value) {
    match v
    case Null => false
    case Bool(b) => b
    case Int(i) => i != 0
    case Str(s) => |s| > 0
    case List(xs) => |xs| > 0
    case Dict(m) => |m| > 0
  }

  /** The name Python reports for the type of `v` in error messages. */
  function TypeName(v: Value): string {
    match v
    case Null => "NoneType"
    case Bool(_) => "bool"
    case Int(_) => "int"
    case Str(_) => "str"
    case List(_) => "list"
    case Dict(_) => "dict"
  }

  /** The exceptions that can reach the modelled code, each with what `str(e)` shows. */
  datatype Error =
    | ValueError(message: string)
    | KeyError(repr: string)
    | IndexError(message: string)
    | AttributeError(typeName: string, attribute: string)
    | TypeError(message: string)
    | BinasciiError(message: string)
    | LoadError(message: string)

  /** `str(e)`: a `KeyError` shows the repr of its key, an `AttributeError` names type and attribute. */
  function Message(e: Error): string {
    match e
    case ValueError(m) => m
    case KeyError(r) => r
    case IndexError(m) => m
    case AttributeError(t, a) => "'" + t + "' object has no attribute '" + a + "'"
    case TypeError(m) => m
    case BinasciiError(m) => m
    case LoadError(m) => m
  }

  /** `repr` of a string key without quotes or backslashes in it. */
  function Repr(key: string): string {
    "'" + key + "'"
  }

  /** `v.get(key, default)`; only a dict has a `get` method. */
  function Get(v: Value, key: string, default: Value): Result<Value, Error> {
    match v
    case Dict(m) => Ok(if key in m then m[key] else default)
    case _ => Err(AttributeError(TypeName(v), "get"))
  }

  /** `v[key]` for a string key. */
  function Subscript(v: Value, key: string): Result<Value, Error> {
    match v
    case Dict(m) => if key in m then Ok(m[key]) else Err(KeyError(Repr(key)))
    case List(_) => Err(TypeError("list indices must be integers or slices, not str"))
    case Str(_) => Err(TypeError("string indices must be integers, not 'str'"))
    case _ => Err(TypeError("'" + TypeName(v) + "' object is not subscriptable"))
  }

  /**
   * `v.get(key, default)` where the key is itself a parsed value: a string
   * key is looked up, an unhashable key raises, and any other key is absent
   * from a string-keyed mapping.
   */
  function GetByValue(v: Value, key: Value, default: Value): Result<Value, Error> {
    match v
    case Dict(m) =>
      (match key
       case Str(k) => Ok(if k in m then m[k] else default)
       case List(_) => Err(TypeError("unhashable type: 'list'"))
       case Dict(_) => Err(TypeError("unhashable type: 'dict'"))
       case _ => Ok(default))
    case _ => Err(AttributeError(TypeName(v), "get"))
  }

  /** `v[0]`. */
  function First(v: Value): Result<Value, Error> {
    match v
    case List(xs) => if |xs| > 0 then Ok(xs[0]) else Err(IndexError("list index out of range"))
    case Str(s) => if |s| > 0 then Ok(Str(s[..1])) else Err(IndexError("string index out of range"))
    case Dict(_) => Err(KeyError("0"))
    case _ => Err(TypeError("'" + TypeName(v) + "' object is not subscriptable"))
  }
}
