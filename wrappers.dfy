/** A value that may be absent: Python's `None` for "no hand detected" or "no shot recognised". */
module Wrappers {
  datatype Option<+T> = None | Some(value: T)
}

/** Small real-number helpers mirroring Python's `abs`, `min` and `max`. */
module RealMath {
  function Abs(x: real): (r: real)
    ensures r >= 0.0 && (r == x || r == -x)
  {
    if x < 0.0 then -x else x
  }

  function Min(a: real, b: real): (r: real)
    ensures r <= a && r <= b && (r == a || r == b)
  {
    if a <= b then a else b
  }

  function Max(a: real, b: real): (r: real)
    ensures r >= a && r >= b && (r == a || r == b)
  {
    if a >= b then a else b
  }

  /** `x` lies on the closed segment between `a` and `b`, in either order. */
  predicate Between(a: real, b: real, x: real)
  {
    Min(a, b) <= x <= Max(a, b)
  }
}
