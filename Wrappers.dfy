/** Success/failure values standing for Go's `(value, error)` returns and for NaN results. */
module Wrappers {

  /** A value that may be absent; `None` stands for a NaN result. */
  datatype Option<+T> = None | Some(value: T)

  /** The value of an operation that returns either a result or an error. */
  datatype Result<+T, +E> = Ok(value: T) | Err(error: E)

  /** The value of an operation that returns only an error, or nil. */
  datatype Outcome<+E> = Pass | Fail(error: E)
}
