/** Option and Result value types shared by the model's modules. */
module Wrappers {

  /** A Java reference that may be null, as a value. */
  datatype Option<+T> = None | Some(value: T)

  /** A call that either returns a value or throws an error. */
  datatype Result<+R, +E> = Success(value: R) | Failure(error: E)
}
