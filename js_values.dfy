/**
 * The slice of JavaScript's value semantics the fetcher relies on: truthiness,
 * the `a || b` default idiom, property reads, and the errors that are thrown.
 */
module JsValues {

  /** A JavaScript value. Objects are finite maps from property names to values;
      a function is known only by an identity. Numbers are integers here. */
  datatype Value =
    | Undefined
    | Null
    | Bool(b: bool)
    | Num(n: int)
    | Str(s: string)
    | Obj(fields: map<string, Value>)
    | Func(id: nat)

  /** The errors the core throws. */
  datatype Error =
    | FetcherNotDefined        // registerFetcher: 'Fetcher is not defined correctly'
    | FetcherNotFound          // getFetcher: 'Fetcher could not be found'
    | TypeError(reason: string) // a property read on null/undefined, or a call of a non-function

  datatype Result<T> = Success(value: T) | Failure(error: Error)

  datatype Outcome = Pass | Fail(error: Error)

  datatype Option<T> = None | Some(value: T)

  /** JavaScript's ToBoolean. */
  predicate Truthy(v: Value)
  {
    match v
    case Undefined => false
    case Null => false
    case Bool(b) => b
    case Num(n) => n != 0
    case Str(s) => s != ""
    case Obj(_) => true
    case Func(_) => true
  }

  /** `a || b`: the first operand when it is truthy, the second otherwise. */
  function Or(a: Value, b: Value): Value
  {
    if Truthy(a) then a else b
  }

  predicate Nullish(v: Value)
  {
    v.Undefined? || v.Null?
  }

  /** `v[key]` on a value that is not null or undefined: an own field of an
      object, and undefined for any other value. */
  function Get(v: Value, key: string): Value
  {
    if v.Obj? && key in v.fields then v.fields[key] else Undefined
  }

  /** `v.key` as JavaScript evaluates it: a TypeError on null or undefined. */
  function Field(v: Value, key: string): Result<Value>
  {
    if Nullish(v) then Failure(TypeError("cannot read property of " + (if v.Null? then "null" else "undefined")))
    else Success(Get(v, key))
  }

  /** `Object.keys(v).length` for a truthy value: the own fields of an object, the
      indices of a string, none for anything else. */
  function KeyCount(v: Value): nat
  {
    match v
    case Obj(m) => |m|
    case Str(s) => |s|
    case _ => 0
  }

  const EmptyObject: Value := Obj(map[])
}
