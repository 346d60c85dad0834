/** Option and Result, the stand-ins for C#'s null references and thrown exceptions. */
module Wrappers {

  /** A reference that may be null. */
  datatype Option<+T> = None | Some(value: T)

  /** The outcome of a call that either returns a value or throws an exception of kind E. */
  datatype Result<+T, +E> = Success(value: T) | Failure(error: E)
}
