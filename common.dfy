/** Failure-carrying wrappers shared by every module of the model. */
module Common {

  /** A value that may be absent: JavaScript's `undefined` is `None`. */
  datatype Option<+T> = None | Some(value: T)

  /** The outcome of an operation that can throw: `Err` carries the thrown error. */
  datatype Result<+T, +E> = Ok(value: T) | Err(error: E)

  /**
   * A JavaScript value where a number is expected, restricted to the values
   * the model needs: `undefined` (a missing table entry), an integer, and
   * the `NaN` that arithmetic on `undefined` produces.
   */
  datatype Numeric = Undefined | Num(n: int) | NaN
}
