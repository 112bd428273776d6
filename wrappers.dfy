/** Failure-carrying values used throughout the model: a Go `(T, error)` pair
    becomes a `Result`, a bare `error` return becomes an `Outcome`. */
module Wrappers {

  datatype Option<+T> = None | Some(value: T)

  datatype Result<+T, +E> = Ok(value: T) | Err(error: E)

  /** `Pass` is Go's `nil` error. */
  datatype Outcome<+E> = Pass | Fail(error: E)
}
