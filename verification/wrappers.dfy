/** Option and Result, and the floating-point values (a finite real or NaN) that
    numpy produces for the mean of nothing and for 0/0. */
module Wrappers {

  datatype Option<+T> = None | Some(value: T)

  /** An operation that either yields a value or raises an error. Failure-compatible,
      so `var x :- F(...); ...` propagates the error. */
  datatype Result<+T, +E> = Ok(value: T) | Err(error: E) {

    predicate IsFailure() {
      Err?
    }

    function PropagateFailure<U>(): Result<U, E>
      requires Err?
    {
      Err(error)
    }

    function Extract(): T
      requires Ok?
    {
      value
    }
  }

  /** A float as numpy produces it: a finite value, or NaN. */
  datatype Float = Finite(v: real) | NaN

  /** Python's `a > b` on floats: every comparison with NaN is false. */
  predicate Greater(a: Float, b: Float) {
    a.Finite? && b.Finite? && a.v > b.v
  }

  /** Python's `a * k` for a float `a`: NaN stays NaN. */
  function Scaled(a: Float, k: real): Float {
    if a.NaN? then NaN else Finite(a.v * k)
  }
}
