/** Result types shared by the modules of the finance dashboard model. */
module Common {

  /** A value that may be absent (Python's `None`). */
  datatype Option<+T> = None | Some(value: T) {
    function GetOr(default: T): T {
      match this
      case Some(v) => v
      case None => default
    }
  }

  /** The outcome of an operation that either returns a value or raises. */
  datatype Result<+T, +E> = Ok(value: T) | Err(error: E)

  /** A floating-point result that is either an ordinary number or NaN.
      Positive infinity never escapes the modelled computations: every place
      where the source produces it is resolved explicitly. */
  datatype Measure = Undefined | Value(v: real)
}
