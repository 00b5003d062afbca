/**
 JavaScript values as the completion helper handles them: the fields of the
 incoming event, the value the wrapped function settles with, and the JSON
 payload of a delivery. Objects are finite maps from property names to values;
 only own enumerable string-keyed properties are represented.
 */
module JsValue {

  datatype Value =
    | Undefined
    | Null
    | Bool(b: bool)
    | Num(n: int)
    | Str(s: string)
    | Arr(items: seq<Value>)
    | Obj(fields: map<string, Value>)

  /** A plain JavaScript object. */
  type Object = map<string, Value>

  /** An `Error` instance; only its `message` is ever read. */
  datatype Error = Error(message: string)

  /** The object literal `{}`. */
  const EmptyObject: Value := Obj(map[])

  /** JavaScript truthiness: `undefined`, `null`, `false`, `0` and `''` are falsy. */
  predicate Truthy(v: Value) {
    match v
    case Undefined => false
    case Null => false
    case Bool(b) => b
    case Num(n) => n != 0
    case Str(s) => s != ""
    case Arr(_) => true
    case Obj(_) => true
  }

  /** The expression `a || b`: the left operand when truthy, otherwise the right one. */
  function Or(a: Value, b: Value): (r: Value)
    ensures r == a || r == b
    ensures Truthy(r) <==> Truthy(a) || Truthy(b)
    ensures Truthy(a) ==> r == a
    ensures !Truthy(a) ==> r == b
  {
    if Truthy(a) then a else b
  }

  /** Property read `o[k]`: a missing property reads as `undefined`. */
  function Get(o: Object, k: string): (v: Value)
    ensures k !in o ==> v == Undefined
    ensures k in o ==> v == o[k]
  {
    if k in o then o[k] else Undefined
  }

  /** `Object.assign({}, target, source)`: every property of `source` is copied
      over `target`, so on a shared name the source's value wins. */
  function Assign(target: Object, source: Object): (r: Object)
    ensures r.Keys == target.Keys + source.Keys
    ensures forall k :: k in source ==> r[k] == source[k]
    ensures forall k :: k in target && k !in source ==> r[k] == target[k]
  {
    target + source
  }

  /** The properties of `o` whose names are in `keys`. */
  function Restrict(o: Object, keys: set<string>): (r: Object)
    ensures r.Keys == o.Keys * keys
    ensures forall k :: k in r ==> r[k] == o[k]
  {
    map k | k in o && k in keys :: o[k]
  }
}
