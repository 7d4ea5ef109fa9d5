/**
 * The PHP values the controller handles, and the few PHP operators whose
 * semantics the controller depends on: `array_merge` with string keys,
 * `Arr::except`, reading a property with `->`, loose comparison with
 * `null` and truthiness (used by `?:`).
 */
module Php {

  /** A PHP value as seen by the controller. `Time` is a `DateTime` object,
      identified by its instant (epoch seconds); `Obj` is an object read
      through its properties, or an associative array with string keys. */
  datatype Value =
    | Null
    | Bool(b: bool)
    | Num(n: int)
    | Str(s: string)
    | Time(epoch: int)
    | Obj(fields: map<string, Value>)

  /** The string-keyed array that `(array) $obj` yields, or that the
      controller builds with array literals. */
  type Fields = map<string, Value>

  datatype Option<T> = None | Some(value: T)

  /** The only run-time failure the reshaping code can meet: calling
      `setTimezone()` on something that is not a `DateTime` (PHP raises an
      `Error`, which nothing in the controller catches). `path` names the
      property chain that was read. */
  datatype Fault = NotADateTime(path: string)

  datatype Result<T> = Success(value: T) | Failure(fault: Fault) {
    predicate IsFailure() {
      Failure?
    }

    function PropagateFailure<U>(): Result<U>
      requires Failure?
    {
      Failure(fault)
    }

    function Extract(): T
      requires Success?
    {
      value
    }
  }

  /** `array_merge($a, $b)` on string keys: every key of both, and where a
      key is in both the later argument wins. */
  function Merge(a: Fields, b: Fields): (r: Fields)
    ensures r.Keys == a.Keys + b.Keys
    ensures forall k :: k in b ==> r[k] == b[k]
    ensures forall k :: k in a && k !in b ==> r[k] == a[k]
  {
    a + b
  }

  /** `Arr::except($a, $keys)`: the array without the given keys. */
  function Except(a: Fields, keys: set<string>): (r: Fields)
    ensures r.Keys == a.Keys - keys
    ensures forall k :: k in r ==> r[k] == a[k]
  {
    a - keys
  }

  /** `$v->name`: the property's value, or `null` (with a PHP warning) when
      `v` has no such property or is not an object at all. Laravel's error
      handler turns that warning into an exception at the read; the
      callers here then fail at the same point, on the `null`. */
  function Prop(v: Value, name: string): Value {
    match v
    case Obj(fields) => if name in fields then fields[name] else Null
    case _ => Null
  }

  /** `$v == null` (loose comparison): `null`, `false`, `0`, `""` and the
      empty array compare equal to `null`; `"0"` does not. */
  predicate LooselyNull(v: Value) {
    match v
    case Null => true
    case Bool(b) => !b
    case Num(n) => n == 0
    case Str(s) => s == ""
    case Time(_) => false
    case Obj(fields) => fields == map[]
  }

  /** PHP truthiness, as `?:` and `if` read it: `"0"` is false although it
      is not loosely null. */
  predicate Truthy(v: Value) {
    match v
    case Null => false
    case Bool(b) => b
    case Num(n) => n != 0
    case Str(s) => s != "" && s != "0"
    case Time(_) => true
    case Obj(fields) => fields != map[]
  }

  /** Every value that is loosely `null` is falsy; the converse fails only
      for the string `"0"`. */
  lemma LooselyNullIsFalsy(v: Value)
    ensures LooselyNull(v) ==> !Truthy(v)
    ensures !Truthy(v) && !LooselyNull(v) <==> v == Str("0")
  {
    if v.Str? && !Truthy(v) && !LooselyNull(v) {
      assert v.s == "0";
    }
  }
}
