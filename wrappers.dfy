/** Option and Result, the shapes used for Go's nil-able values and `(value, error)` returns. */
module Wrappers {

  datatype Option<+T> = None | Some(value: T)

  datatype Result<+R, +E> = Success(value: R) | Failure(error: E)
}
