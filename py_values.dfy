/**
 * The Python objects that appear as values of the request and configuration
 * mappings, with the few pieces of Python semantics the routine relies on:
 * `dict.get`, `==` against a numeric literal, truthiness, and the integer
 * argument of `range`.
 */
module PyValues {
  import opened Wrappers

  /** A Python value; floats are exact reals (no NaN, no infinities). */
  datatype Value =
    | NoneV
    | BoolV(b: bool)
    | IntV(i: int)
    | FloatV(f: real)
    | StrV(s: string)
    | ListV(items: seq<Value>)
    | DictV(entries: seq<(string, Value)>)  // its items in insertion order

  /** A `dict` keyed by strings, as requests, `generate_config` and `decode_config` are. */
  type Mapping = map<string, Value>

  /** The exceptions the routine itself can raise. */
  datatype Error =
    | KeyError(key: string)    // subscripting a mapping with a missing key
    | TypeError(culprit: Value) // `range` given a value that is not an integer

  /** `m.get(key, default)` */
  function Get(m: Mapping, key: string, default: Value): Value {
    if key in m then m[key] else default
  }

  /**
   * Python's `v == x` for a numeric literal `x`: a bool compares as 0 or 1
   * (bool is a subclass of int), ints and floats compare by value, and a
   * value of any other type is never equal to a number.
   */
  predicate EqualsNumber(v: Value, x: real) {
    match v
    case BoolV(b) => (if b then 1.0 else 0.0) == x
    case IntV(i) => i as real == x
    case FloatV(f) => f == x
    case _ => false
  }

  /** Python's `bool(v)`. */
  predicate Truthy(v: Value) {
    match v
    case NoneV => false
    case BoolV(b) => b
    case IntV(i) => i != 0
    case FloatV(f) => f != 0.0
    case StrV(s) => s != ""
    case ListV(items) => items != []
    case DictV(entries) => entries != []
  }

  /**
   * The stop argument that `range(0, v)` accepts: an int, or a bool taken as
   * 0 or 1; anything else raises TypeError.
   */
  function RangeStop(v: Value): (r: Result<int, Error>)
    ensures r.Failure? <==> !(v.IntV? || v.BoolV?)
    ensures r.Failure? ==> r.error == TypeError(v)
    ensures v.IntV? ==> r == Success(v.i)
    ensures v.BoolV? ==> r == Success(if v.b then 1 else 0)
  {
    match v
    case IntV(i) => Success(i)
    case BoolV(b) => Success(if b then 1 else 0)
    case _ => Failure(TypeError(v))
  }

  /** How many times `for _ in range(0, stop)` runs its body. */
  function RangeLength(stop: int): nat {
    if stop < 0 then 0 else stop
  }
}
