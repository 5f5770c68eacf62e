/** Option and Result values used where the original program returns `null`,
    `undefined` or an HTTP error status instead of a value. */
module Wrappers {

  datatype Option<+T> = None | Some(value: T)

  datatype Result<+R, +E> = Success(value: R) | Failure(error: E)
}
