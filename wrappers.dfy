/** Failure-carrying datatypes shared by the modules of this model. */
module Wrappers {

  datatype Option<+T> = None | Some(value: T)

  /** The result of a Go call that returns a value and an `error`. */
  datatype Result<+R, +E> = Success(value: R) | Failure(error: E)
}
