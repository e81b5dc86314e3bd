/**
 * The Python values a component record is made of, and the few pieces of
 * Python semantics the selectors apply to them: truthiness, arithmetic
 * on a value (where `bool` counts as `int` and anything else raises
 * `TypeError`), `dict.get` with a default, and exceptions.
 */
module PyValues {

  datatype Option<+T> = None | Some(value: T)

  /** An attribute value: a number, a string, a bool, a nested dict, a list, or None. */
  datatype Value =
    | Num(n: real)
    | Str(s: string)
    | Flag(b: bool)
    | Rec(fields: map<string, Value>)
    | Lst(items: seq<Value>)
    | Null

  /** A component record: attribute name to value. A missing key is an absent attribute. */
  type Record = map<string, Value>

  /** A weight table: attribute name to signed weight. */
  type Weights = map<string, real>

  /**
   * The outcome of a piece of Python code: a value, or an exception
   * (KeyError, TypeError, ValueError or AttributeError; which one is not
   * kept, since none of them is caught anywhere in the selectors).
   */
  datatype Result<+T> = Ok(value: T) | Raise {
    predicate IsFailure() { Raise? }

    function PropagateFailure<U>(): Result<U>
      requires Raise?
    {
      Raise
    }

    function Extract(): T
      requires Ok?
    {
      value
    }
  }

  /** Python's `bool(v)`. */
  predicate Truthy(v: Value)
  {
    match v
    case Num(x) => x != 0.0
    case Str(s) => s != ""
    case Flag(b) => b
    case Rec(f) => |f| != 0
    case Lst(xs) => |xs| != 0
    case Null => false
  }

  /**
   * `v` as an operand of `*`, `-`, `<` or `>` next to a number: a bool is
   * 0 or 1, a number is itself, and every other value raises TypeError.
   */
  function Arith(v: Value): Result<real>
  {
    match v
    case Num(x) => Ok(x)
    case Flag(b) => Ok(if b then 1.0 else 0.0)
    case _ => Raise
  }

  /** `record.get(key, default)`. */
  function GetOr(record: Record, key: string, default: Value): Value
  {
    if key in record then record[key] else default
  }

  function Abs(x: real): real { if x < 0.0 then -x else x }

  /** Addition of two outcomes: raises when either does. */
  function Plus(a: Result<real>, b: Result<real>): Result<real>
  {
    if a.Ok? && b.Ok? then Ok(a.value + b.value) else Raise
  }

  /** Moving one addend of a sum into a running total: `t + (a + rest) == (t + a) + rest`, raising alike. */
  lemma PlusShift(total: real, a: Result<real>, rest: Result<real>)
    ensures a.Raise? ==> Plus(Ok(total), Plus(a, rest)) == Raise
    ensures a.Ok? ==> Plus(Ok(total), Plus(a, rest)) == Plus(Ok(total + a.value), rest)
  {
  }

  /** `value * weight`: a normalised attribute value times its weight. */
  function Weigh(value: real, weight: real): real
  {
    value * weight
  }

  /** Adding outcomes is associative, raising alike. */
  lemma PlusAssoc(a: Result<real>, b: Result<real>, c: Result<real>)
    ensures Plus(a, Plus(b, c)) == Plus(Plus(a, b), c)
  {
    if a.Ok? && b.Ok? && c.Ok? {
      assert a.value + (b.value + c.value) == (a.value + b.value) + c.value;
    }
  }

  /** The last two addends of a sum of outcomes can be swapped. */
  lemma PlusSwap(a: Result<real>, b: Result<real>, c: Result<real>)
    ensures Plus(Plus(a, b), c) == Plus(Plus(a, c), b)
  {
    if a.Ok? && b.Ok? && c.Ok? {
      assert (a.value + b.value) + c.value == (a.value + c.value) + b.value;
    }
  }

  /** A non-negative value times a non-negative weight is the non-negative product. */
  lemma WeighNonNegative(value: real, weight: real)
    requires value >= 0.0 && weight >= 0.0
    ensures Weigh(value, weight) == value * weight >= 0.0
  {
  }

  /** The outcome multiplied by a weight. */
  function Scale(a: Result<real>, weight: real): Result<real>
  {
    if a.Ok? then Ok(Weigh(a.value, weight)) else Raise
  }
}
