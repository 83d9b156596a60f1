/** Failure-compatible result types shared by the other modules. */
module Wrappers {

  /** A value that may be absent. */
  datatype Option<+T> = None | Some(value: T)

  /** A value, or the error that prevented computing it (Go's `(T, error)` pair). */
  datatype Result<+T, +E> = Success(value: T) | Failure(error: E)

  /** Go's bare `error` return: `nil` (Pass) or a failure. */
  datatype Outcome<+E> = Pass | Fail(error: E)
}
