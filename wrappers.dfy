/** Failure-carrying values: Go's `(value, error)` pairs and nil-able results. */
module Wrappers {

  datatype Option<+T> = None | Some(value: T)

  datatype Result<+R, +E> = Success(value: R) | Failure(error: E)
}
