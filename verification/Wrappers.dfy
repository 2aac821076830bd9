/** The optional values and the failing results that the other modules share. */
module Wrappers {
  datatype Option<+T> = None | Some(value: T)

  /** `Failure` stands for a Python exception that leaves the call. */
  datatype Result<+T, +E> = Success(value: T) | Failure(error: E)
}
