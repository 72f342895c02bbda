/**
 * The part of JavaScript's value model the mock binding inspects: `typeof`, truthiness,
 * reading a property and (in strict mode) assigning one. Only the keys the binding reads
 * (disconnect, push, baudRate, lock) are ever looked up, and no prototype of the values
 * modelled here defines any of them, so an own-property map is an exact account of them.
 * Arrays, whose prototype has a `push` function, are not among the values modelled.
 */
module Values {
  import opened Wrappers
  import opened Errors

  type Bytes = seq<bv8>

  /** Numbers are integers here (NaN and fractions are not modelled). */
  datatype Value =
    | Undefined
    | Null
    | Boolean(bool)
    | Number(int)
    | Text(string)
    | Function
    | Buffer(bytes: Bytes)
    | Object(props: map<string, Value>)

  /** The `typeof` operator; note that `typeof null` and a Buffer's are "object". */
  function TypeOf(v: Value): string {
    match v
    case Undefined => "undefined"
    case Null => "object"
    case Boolean(_) => "boolean"
    case Number(_) => "number"
    case Text(_) => "string"
    case Function => "function"
    case Buffer(_) => "object"
    case Object(_) => "object"
  }

  /** Truthiness as `if (v)` and `!v` test it: every object, function and Buffer is truthy, even an empty one. */
  predicate Truthy(v: Value) {
    match v
    case Undefined => false
    case Null => false
    case Boolean(b) => b
    case Number(n) => n != 0
    case Text(s) => s != ""
    case Function => true
    case Buffer(_) => true
    case Object(_) => true
  }

  /** `v[key]`: a TypeError on undefined and null, an absent own property reads as undefined. */
  function Get(v: Value, key: string): (r: Result<Value, Error>)
    ensures r.Failure? <==> v.Undefined? || v.Null?
    ensures r.Failure? ==> r.error.kind == TypeError
    ensures r.Success? && v.Object? && key in v.props ==> r.value == v.props[key]
    ensures r.Success? && !(v.Object? && key in v.props) ==> r.value == Undefined
  {
    match v
    case Undefined => Failure(CannotRead(key, "undefined"))
    case Null => Failure(CannotRead(key, "null"))
    case Object(props) => Success(if key in props then props[key] else Undefined)
    case _ => Success(Undefined)
  }

  /**
   * `v[key] = x` in strict mode: a TypeError on undefined, null and primitives. A plain object
   * gets the property; a function or a Buffer accepts it, but this model keeps no named
   * properties on those, so they come back unchanged.
   */
  function Put(v: Value, key: string, x: Value): (r: Result<Value, Error>)
    ensures r.Success? <==> v.Object? || v.Function? || v.Buffer?
    ensures r.Failure? ==> r.error.kind == TypeError
    ensures r.Success? && v.Object? ==> r.value == Object(v.props[key := x])
    ensures r.Success? && !v.Object? ==> r.value == v
  {
    match v
    case Object(props) => Success(Object(props[key := x]))
    case Function => Success(v)
    case Buffer(_) => Success(v)
    case Undefined => Failure(CannotSet(key, "undefined"))
    case Null => Failure(CannotSet(key, "null"))
    case _ => Failure(CannotSet(key, TypeOf(v)))
  }
}
