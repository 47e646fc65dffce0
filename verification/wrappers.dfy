/** Failure-carrying values shared by the trajectory generator and the controller. */
module Wrappers {

  /** A value that may be absent: Python's `None` or a value. */
  datatype Option<+T> = None | Some(value: T)

  /** Either a computed value or the reason it could not be computed. */
  datatype Result<+T, +E> = Success(value: T) | Failure(error: E)
}
