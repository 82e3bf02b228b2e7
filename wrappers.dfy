/** The optional and failure-carrying values that stand in for Go's `error` returns. */
module Wrappers {

  /** A Go `error` that may be nil: None is nil. */
  datatype Option<+T> = None | Some(value: T)

  /** A Go `(value, error)` pair where exactly one side is meaningful. */
  datatype Result<+T, +E> = Ok(value: T) | Err(error: E)
}
