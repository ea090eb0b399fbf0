/**
 * The two failure-carrying types the model needs: a nil-able value and a
 * value-or-error pair (Go's `(T, error)`).
 */
module Wrappers {

  datatype Option<+T> = None | Some(value: T)

  datatype Result<+T, +E> = Success(value: T) | Failure(error: E)
}
