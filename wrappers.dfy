/** Option and Result, the failure-carrying values used throughout the model. */
module Wrappers {

  /** `None` stands for Java's `null` wherever the source may return it. */
  datatype Option<+T> = None | Some(value: T)

  /** `Failure` stands for an exception thrown by, or reported from, an operation. */
  datatype Result<+R, +E> = Success(value: R) | Failure(error: E)
}
