/** Option, Result and Outcome: the error paths of the model. */
module Wrappers {

  /** A value that may be absent. */
  datatype Option<+T> = None | Some(value: T)

  /** A computed value, or the Python exception that would have been raised instead. */
  datatype Result<+T, +E> = Success(value: T) | Failure(error: E)

  /** A statement that either returns normally or raises. */
  datatype Outcome<+E> = Pass | Fail(error: E)
}
