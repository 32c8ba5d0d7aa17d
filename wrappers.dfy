/** Failure-carrying values standing in for the exceptions the PHP code throws. */
module Wrappers {

  datatype Option<+T> = None | Some(value: T)

  /** A value, or the error a PHP method would have thrown instead of returning it. */
  datatype Result<+R, +E> = Success(value: R) | Failure(error: E)

  /** A method that returns nothing on success, or the error it would have thrown. */
  datatype Outcome<+E> = Pass | Fail(error: E)
}
