/** Failure-carrying values: the model's stand-ins for Go's nil pointers,
    `(value, error)` pairs and functions that return only an `error`. */
module Wrappers {

  /** A value that may be absent (a Go pointer that may be nil). */
  datatype Option<+T> = None | Some(value: T)

  /** A value or an error (a Go `(T, error)` pair). */
  datatype Result<+R, +E> = Success(value: R) | Failure(error: E)

  /** Either nothing went wrong or an error (a Go function returning `error`). */
  datatype Outcome<+E> = Pass | Fail(error: E)
}
