/** The dynamically typed values (`Any`) that the source keeps in dicts: JSON-like data. */
module Json {
  import opened Wrappers

  datatype Value =
    | Null
    | Bool(b: bool)
    | Num(n: real)
    | Str(s: string)
    | List(items: seq<Value>)
    | Obj(fields: map<string, Value>)

  /** Python truthiness: `None`, `False`, `0`, and empty strings, lists and dicts are false. */
  predicate Truthy(v: Value)
  {
    match v
    case Null => false
    case Bool(b) => b
    case Num(n) => n != 0.0
    case Str(s) => s != ""
    case List(items) => items != []
    case Obj(fields) => fields != map[]
  }

  /** `d.get(key, default)` on a dict; anything but a dict raises (`Failure`). */
  function GetOr(d: Value, key: string, default: Value): (r: Result<Value, string>)
    ensures r.Success? <==> d.Obj?
    ensures d.Obj? && key !in d.fields ==> r == Success(default)
    ensures d.Obj? && key in d.fields ==> r == Success(d.fields[key])
  {
    if !d.Obj? then Failure("object has no attribute 'get'")
    else if key in d.fields then Success(d.fields[key])
    else Success(default)
  }

  /** `xs[0]` on a list; an empty list or a non-list raises (`Failure`). */
  function First(xs: Value): (r: Result<Value, string>)
    ensures r.Success? <==> xs.List? && xs.items != []
    ensures r.Success? ==> r.value == xs.items[0]
  {
    if xs.List? && xs.items != [] then Success(xs.items[0])
    else Failure("list index out of range")
  }
}
