/** Option and Result, used for optional fields and for the outcome of calls that may throw. */
module Wrappers {

  datatype Option<+T> = None | Some(value: T)

  /** The outcome of an asynchronous call: the value it resolves to, or the value it throws. */
  datatype Result<+R, +E> = Success(value: R) | Failure(error: E)
}
