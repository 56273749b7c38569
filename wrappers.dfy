/** Failure-carrying values used throughout the model in place of Go's
    nil references and (value, error) pairs. */
module Wrappers {

  /** A nil-able value: `None` is Go's nil. */
  datatype Option<+T> = None | Some(value: T)

  /** A Go `(value, error)` pair where exactly one side is meaningful. */
  datatype Result<+T, +E> = Ok(value: T) | Err(error: E)
}
