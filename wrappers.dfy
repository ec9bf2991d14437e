/** The optional value used wherever the source has a reference that may be null. */
module Wrappers {

  datatype Option<+T> = None | Some(value: T)

  /** A value, or the reason it could not be produced. */
  datatype Result<+T, +E> = Success(value: T) | Failure(error: E)
}
