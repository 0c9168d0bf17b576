/** Failure-carrying results: `Option` for a value that may be absent and
    `Result` for a computation that either succeeds or raises. */
module Wrappers {

  datatype Option<+T> = None | Some(value: T)

  datatype Result<+R, +E> = Success(value: R) | Failure(error: E)
}
