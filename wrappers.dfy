/** Option and Result, the two failure-carrying datatypes the model uses. */
module Wrappers {

  datatype Option<+T> = None | Some(value: T)

  /** A JavaScript function that returns a value or throws an Error with a message. */
  datatype Result<+R, +E> = Success(value: R) | Failure(error: E)
}
