/**
 * The small part of Python's object model that the callbacks' arguments and
 * error paths rely on: the kinds of values a constructor can be handed, the
 * exception classes raised, `isinstance` for numbers (a bool is an int) and
 * the key equality of a `dict`.
 */
module Python {

  datatype Option<+T> = None | Some(value: T)

  datatype Result<+R, +E> = Success(value: R) | Failure(error: E)

  /** The built-in exception classes raised by the callbacks or by the interpreter under them. */
  datatype ExceptionClass =
    | TypeError
    | ValueError
    | LookupError
    | KeyError
    | AttributeError
    | ZeroDivisionError
    | NameError

  /**
   * A Python object as a constructor argument. Floats are reals (no NaN and
   * no infinities); a function object is the rule it computes; a dict is its
   * items in iteration order.
   */
  datatype Value =
    | NoneValue
    | BoolValue(b: bool)
    | IntValue(i: int)
    | FloatValue(f: real)
    | StrValue(s: string)
    | FunctionValue(call: (int, real) -> real)
    | DictValue(items: seq<(Value, Value)>)
    | OtherValue

  /** `isinstance(v, int)`: bool is a subclass of int. */
  predicate IsInstanceInt(v: Value) {
    v.BoolValue? || v.IntValue?
  }

  /** `isinstance(v, float)`. */
  predicate IsInstanceFloat(v: Value) {
    v.FloatValue?
  }

  /** `callable(v)`: only function objects are callable in this model. */
  predicate IsCallable(v: Value) {
    v.FunctionValue?
  }

  /** The numeric value of an int, bool or float (`True == 1`, `False == 0`). */
  function AsReal(v: Value): real
    requires IsInstanceInt(v) || IsInstanceFloat(v)
  {
    match v
    case BoolValue(b) => if b then 1.0 else 0.0
    case IntValue(i) => i as real
    case FloatValue(f) => f
  }

  /** `x % 1 == 0` for a number `x`: it has no fractional part. */
  predicate IsWhole(x: real) {
    x.Floor as real == x
  }

  /** Two dict keys that Python treats as the same key: equal numbers (so `1`, `1.0` and `True`), or equal strings. */
  predicate SameKey(a: Value, b: Value) {
    || ((IsInstanceInt(a) || IsInstanceFloat(a)) && (IsInstanceInt(b) || IsInstanceFloat(b)) && AsReal(a) == AsReal(b))
    || (a.StrValue? && b.StrValue? && a.s == b.s)
  }

  /** What every Python dict guarantees of its items: no key occurs twice. */
  predicate DistinctKeys(items: seq<(Value, Value)>) {
    forall i, j :: 0 <= i < j < |items| ==> !SameKey(items[i].0, items[j].0)
  }

  /** A sequence without repetitions, such as the keys of a dict in iteration order. */
  predicate Distinct<T(==)>(s: seq<T>) {
    forall i, j :: 0 <= i < j < |s| ==> s[i] != s[j]
  }

  /** `d.get(k)`: the value under `k`, or `None` when `k` is absent. */
  function Get<K, V>(d: map<K, V>, k: K): (r: Option<V>)
    ensures r.Some? <==> k in d
    ensures r.Some? ==> r.value == d[k]
  {
    if k in d then Some(d[k]) else None
  }
}
