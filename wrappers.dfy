/** Option and Result, the two failure-carrying datatypes the model uses for
    JavaScript's `null` / thrown errors and Go's `(value, err)` pairs. */
module Wrappers {

  datatype Option<+T> = None | Some(value: T)

  datatype Result<+R, +E> = Success(value: R) | Failure(error: E)
}
