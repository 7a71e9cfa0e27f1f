/** Option and Result types shared by the modules of this model. */
module Wrappers {

  /** A value that may be absent: the model of a nullable JavaScript variable. */
  datatype Option<+T> = None | Some(value: T)

  /** The outcome of an operation that either returns a value or throws an error. */
  datatype Result<+T, +E> = Success(value: T) | Failure(error: E)
}
