/** Failure-compatible wrappers for PHP's nullable values and thrown exceptions. */
module Basics {

  /** A nullable PHP value. */
  datatype Option<+T> = None | Some(value: T) {
    function GetOr(default: T): T {
      match this
      case Some(v) => v
      case None => default
    }
  }

  /** The exception classes the modelled code throws. */
  datatype Exception =
    | UsageException(message: string)
    | LogParserException(message: string)
    | InvalidArgumentException(message: string)
    | UnderflowException
    | OutOfBoundsException
    | DivisionByZeroError
    | SerialBeforeFailedException
    | GeneralException(message: string)
    | ParseException(message: string)
    | JsonException

  /** A value, or the exception thrown instead of returning it. */
  datatype Result<+T> = Ok(value: T) | Throw(error: Exception) {
    predicate IsFailure() { Throw? }
    function PropagateFailure<U>(): Result<U>
      requires Throw?
    {
      Throw(error)
    }
    function Extract(): T
      requires Ok?
    {
      value
    }
  }

  /** A nullable integer read as a number, the way PHP's `+` reads null. */
  function OrZero(x: Option<int>): int {
    x.GetOr(0)
  }

  function Min(a: int, b: int): int { if a <= b then a else b }
  function Max(a: int, b: int): int { if a <= b then b else a }

  /** PHP's `ceil($a / $b)` for a non-negative numerator and a positive divisor. */
  function CeilDiv(a: nat, b: nat): (r: nat)
    requires b > 0
    ensures r * b >= a && (r == 0 || (r - 1) * b < a)
  {
    (a + b - 1) / b
  }

  function Sum(s: seq<int>): int {
    if s == [] then 0 else Sum(s[..|s| - 1]) + s[|s| - 1]
  }

  lemma SumAppend(a: seq<int>, b: seq<int>)
    ensures Sum(a + b) == Sum(a) + Sum(b)
  {
    if b != [] {
      assert (a + b)[..|a + b| - 1] == a + b[..|b| - 1];
      SumAppend(a, b[..|b| - 1]);
    } else {
      assert a + b == a;
    }
  }

  /** The lanes of a partition read one after the other. */
  function Flatten<T>(lanes: seq<seq<T>>): seq<T> {
    if lanes == [] then [] else Flatten(lanes[..|lanes| - 1]) + lanes[|lanes| - 1]
  }

  lemma {:induction false} FlattenAppend<T>(a: seq<seq<T>>, b: seq<seq<T>>)
    ensures Flatten(a + b) == Flatten(a) + Flatten(b)
  {
    if b != [] {
      assert (a + b)[..|a + b| - 1] == a + b[..|b| - 1];
      FlattenAppend(a, b[..|b| - 1]);
    } else {
      assert a + b == a;
    }
  }

  /** The order in which a stack's values pop. */
  function Reverse<T>(s: seq<T>): (r: seq<T>)
    ensures |r| == |s| && forall i :: 0 <= i < |s| ==> r[i] == s[|s| - 1 - i]
  {
    if s == [] then [] else [s[|s| - 1]] + Reverse(s[..|s| - 1])
  }

  /** A `Ds\Map` with string keys: the keys in insertion order, and the values. */
  datatype OrderedMap<V> = OrderedMap(keys: seq<string>, values: map<string, V>)

  predicate ValidMap<V>(m: OrderedMap<V>) {
    (forall i, j :: 0 <= i < j < |m.keys| ==> m.keys[i] != m.keys[j])
    && (forall k :: k in m.values ==> k in m.keys)
    && (forall k :: k in m.keys ==> k in m.values)
  }

  function EmptyMap<V>(): (m: OrderedMap<V>)
    ensures ValidMap(m)
  {
    OrderedMap([], map[])
  }

  /** `Map::put`: a new key goes to the end, an existing key keeps its place and gets the
      new value. */
  function Put<V>(m: OrderedMap<V>, key: string, value: V): (r: OrderedMap<V>)
    requires ValidMap(m)
    ensures ValidMap(r)
    ensures r.values == m.values[key := value]
    ensures key in m.values ==> r.keys == m.keys
    ensures key !in m.values ==> r.keys == m.keys + [key]
  {
    if key in m.values then OrderedMap(m.keys, m.values[key := value])
    else OrderedMap(m.keys + [key], m.values[key := value])
  }

  /** The values in key order. */
  function Values<V>(m: OrderedMap<V>): (r: seq<V>)
    requires ValidMap(m)
    ensures |r| == |m.keys|
    ensures forall i :: 0 <= i < |r| ==> r[i] == m.values[m.keys[i]]
  {
    seq(|m.keys|, i requires 0 <= i < |m.keys| => m.values[m.keys[i]])
  }
}
