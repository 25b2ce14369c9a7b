/**
 * The values a parsed JSON request body can hold, and the three Python operations the
 * handler applies to such a value: `key in v`, `v[key]` and `v.get(key)`. Each of them
 * raises on some kinds of value; the exception is returned as a `Fault`.
 */
module Values {
  import opened Wrappers
  import opened Strings

  /** A JSON value as `json.loads` returns it (numbers are integers here). */
  datatype Value =
    | Null
    | Bool(b: bool)
    | Num(n: int)
    | Str(s: string)
    | Arr(elems: seq<Value>)
    | Obj(fields: map<string, Value>)

  /** An exception raised while a request is served; its text becomes the 500 payload. */
  datatype Fault =
    | NoAttribute(typeName: string, attribute: string)  // AttributeError: `v.get` on a non-dict
    | NotIterable(typeName: string)                      // TypeError: `key in v` on a scalar
    | BadSubscript(typeName: string)                     // TypeError: `v[key]` on anything but a dict
    | MissingKey(key: string)                            // KeyError: `v[key]` on a dict without key
    | StoreRejected                                      // the table client refused the call

  /** Python's name for the type of the value. */
  function TypeName(v: Value): string
  {
    match v
    case Null => "NoneType"
    case Bool(_) => "bool"
    case Num(_) => "int"
    case Str(_) => "str"
    case Arr(_) => "list"
    case Obj(_) => "dict"
  }

  /** Python's `key in v`: a key test on a dict, a substring test on a str, an element test on a list. */
  function Contains(v: Value, key: string): (r: Result<bool, Fault>)
    ensures r.Failure? <==> v.Null? || v.Bool? || v.Num?
    ensures r.Failure? ==> r.error == NotIterable(TypeName(v))
    ensures v.Obj? ==> r == Success(key in v.fields)
    ensures v.Arr? ==> r == Success(Str(key) in v.elems)
    ensures v.Str? ==> r == Success(IsSubstring(key, v.s))
  {
    match v
    case Obj(m) => Success(key in m)
    case Str(s) => Success(IsSubstring(key, s))
    case Arr(xs) => Success(Str(key) in xs)
    case _ => Failure(NotIterable(TypeName(v)))
  }

  /** On a str, `key in v` holds exactly when key occurs somewhere in it. */
  lemma ContainsSubstring(s: string, key: string)
    ensures Contains(Str(s), key) == Success(true) <==> exists i :: OccursAt(key, s, i)
  {
    IsSubstringAt(key, s);
  }

  /** Python's `v[key]` with a string key. */
  function Subscript(v: Value, key: string): (r: Result<Value, Fault>)
    ensures r.Success? <==> v.Obj? && key in v.fields
    ensures r.Success? ==> r.value == v.fields[key]
    ensures !v.Obj? ==> r == Failure(BadSubscript(TypeName(v)))
  {
    match v
    case Obj(m) => if key in m then Success(m[key]) else Failure(MissingKey(key))
    case Str(_) => Failure(BadSubscript(TypeName(v)))
    case Arr(_) => Failure(BadSubscript(TypeName(v)))
    case _ => Failure(BadSubscript(TypeName(v)))
  }

  /** Python's `v.get(key)`: the value under key, or None when the dict lacks it. */
  function GetOrNull(v: Value, key: string): (r: Result<Value, Fault>)
    ensures r.Success? <==> v.Obj?
    ensures r.Success? ==> r.value == (if key in v.fields then v.fields[key] else Null)
    ensures r.Failure? ==> r.error == NoAttribute(TypeName(v), "get")
  {
    match v
    case Obj(m) => Success(if key in m then m[key] else Null)
    case _ => Failure(NoAttribute(TypeName(v), "get"))
  }
}
