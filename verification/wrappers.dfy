/** Failure-compatible wrappers: `Option` stands in for a Go nil-able reference,
    `Result` for Go's `(value, error)` return pair. */
module Wrappers {

  datatype Option<+T> = None | Some(value: T)

  datatype Result<+R, +E> = Success(value: R) | Failure(error: E)
}
