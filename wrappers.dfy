/** Option and Result, for the Go idioms "nil or a value" and "(value, error)". */
module Wrappers {

  datatype Option<+T> = None | Some(value: T)

  datatype Result<+R, +E> = Success(value: R) | Failure(error: E)
}
