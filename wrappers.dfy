/** Outcome types used in place of the exceptions the library throws. */
module Wrappers {

  /** A value that may be absent (an unset array key, a delegate that failed to construct). */
  datatype Option<+T> = None | Some(value: T)

  /** The result of an operation that either returns a value or throws. */
  datatype Result<+R, +E> = Success(value: R) | Failure(error: E)
}
