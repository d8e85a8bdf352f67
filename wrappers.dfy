/** Failure-carrying values for the Go code's `(value, error)` returns. */
module Wrappers {

  datatype Option<+T> = None | Some(value: T)

  /** A Go `(T, error)` pair where exactly one half is meaningful; errors are their message text. */
  datatype Result<+T> = Ok(value: T) | Err(error: string)

  /** A Go function that returns only an `error`. */
  datatype Outcome = Pass | Fail(error: string)
}
