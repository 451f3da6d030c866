/** Option and Result, the two tagged results the model uses for Go's
    `(value, error)` pairs and nil-able values. */
module Wrappers {

  datatype Option<+T> = None | Some(value: T)

  datatype Result<+R, +E> = Success(value: R) | Failure(error: E)
}
