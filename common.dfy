/** Value types and numeric helpers shared by the wool and reproduction models.
    Doubles and floats of the source are modelled as `real`. */
module Common {

  /** A value that may be absent: a missing attribute, a missing attribute tree, no partner. */
  datatype Option<T> = None | Some(value: T) {
    /** The value, or `default` when absent (the `AsDouble(24.0)`-style getters). */
    function GetOr(default: T): (r: T)
      ensures Some? ==> r == value
      ensures None? ==> r == default
    {
      match this
      case Some(v) => v
      case None => default
    }
  }

  /** `GameMath.Max` / `Math.Max` on doubles. */
  function MaxReal(a: real, b: real): (r: real)
    ensures r >= a && r >= b
    ensures r == a || r == b
  {
    if a >= b then a else b
  }

  /** `Math.Min` on doubles. */
  function MinReal(a: real, b: real): (r: real)
    ensures r <= a && r <= b
    ensures r == a || r == b
  {
    if a <= b then a else b
  }

  /** `GameMath.Min` on integers. */
  function MinInt(a: int, b: int): (r: int)
    ensures r <= a && r <= b
    ensures r == a || r == b
  {
    if a <= b then a else b
  }

  /** `GameMath.Clamp(val, min, max)`: tests the lower bound first, then the upper one. */
  function Clamp(v: real, lo: real, hi: real): (r: real)
    ensures lo <= hi ==> lo <= r <= hi
    ensures lo <= v <= hi ==> r == v
    ensures v > hi && v >= lo ==> r == hi
  {
    if v < lo then lo else if v > hi then hi else v
  }

  /** The C# `(int)` cast of a double: truncation toward zero. */
  function Trunc(x: real): (r: int)
    ensures x >= 0.0 ==> r as real <= x < r as real + 1.0
    ensures x < 0.0 ==> r as real - 1.0 < x <= r as real
  {
    if x >= 0.0 then x.Floor else -((-x).Floor)
  }

  /** The least integer not below `x`. */
  function Ceil(x: real): (r: int)
    ensures r as real - 1.0 < x <= r as real
  {
    -((-x).Floor)
  }

  /** Truncating a value that lies between two integers stays between them. */
  lemma TruncBetween(x: real, lo: int, hi: int)
    requires lo as real <= x <= hi as real
    ensures lo <= Trunc(x) <= hi
  {
  }

  /** Truncating a whole number gives that number back. */
  lemma TruncInt(n: int)
    ensures Trunc(n as real) == n
  {
  }
}
