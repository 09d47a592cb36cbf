/** Nullable values and error returns shared by the other modules. */
module Wrappers {

  /** A Java or JavaScript reference that may be null (or undefined): None stands for null. */
  datatype Option<+T> = None | Some(value: T)

  /** The outcome of an operation that either returns a value or throws. */
  datatype Result<+R, +E> = Success(value: R) | Failure(error: E)
}
