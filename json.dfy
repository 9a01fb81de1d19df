/**
 The decoded payloads: JSON-like values, with dictionaries that keep insertion order.
 The functions are the Python operations the reconciliation code applies to them, each
 failing with the exception Python raises when the value has the wrong shape.
 */
module Json {
  import opened Wrappers
  import opened OrderedDict

  datatype Value =
    | Null
    | Bool(b: bool)
    | Num(n: int)
    | Str(s: string)
    | List(items: seq<Value>)
    | Obj(fields: Dict<string, Value>)

  /** None, booleans, numbers and strings can be dictionary keys; lists and dicts cannot. */
  predicate Hashable(v: Value) {
    !v.List? && !v.Obj?
  }

  /** Python truthiness. */
  predicate Truthy(v: Value) {
    match v
    case Null => false
    case Bool(b) => b
    case Num(n) => n != 0
    case Str(s) => s != ""
    case List(xs) => xs != []
    case Obj(fs) => fs != []
  }

  /** The value bound to `key` in `fields`, or `default`. */
  function Lookup(fields: Dict<string, Value>, key: string, default: Value): Value {
    match Find(fields, key)
    case Some(x) => x
    case None => default
  }

  /** `v[key]`: a KeyError on a dict without the key, a TypeError on anything but a dict. */
  function Subscript(v: Value, key: string): (r: Result<Value>)
    ensures r.Ok? ==> v.Obj?
  {
    if !v.Obj? then Err(TypeError)
    else
      match Find(v.fields, key)
      case Some(x) => Ok(x)
      case None => Err(KeyError)
  }

  /** `v.get(key, default)`: an AttributeError on anything but a dict. */
  function Get(v: Value, key: string, default: Value): (r: Result<Value>)
    ensures r.Ok? <==> v.Obj?
  {
    if v.Obj? then Ok(Lookup(v.fields, key, default)) else Err(AttributeError)
  }

  /** `v.items()`: an AttributeError on anything but a dict. */
  function Items(v: Value): Result<Dict<string, Value>> {
    if v.Obj? then Ok(v.fields) else Err(AttributeError)
  }

  /** `for x in v`: a list yields its elements, a dict its keys, a string its characters. */
  function Iterate(v: Value): Result<seq<Value>> {
    match v
    case List(xs) => Ok(xs)
    case Obj(fs) => Ok(seq(|fs|, i requires 0 <= i < |fs| => Str(fs[i].0)))
    case Str(s) => Ok(seq(|s|, i requires 0 <= i < |s| => Str([s[i]])))
    case _ => Err(TypeError)
  }
}
