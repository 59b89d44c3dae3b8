/** Failure-compatible wrappers for the error paths of the model. */
module Wrappers {

  /** A value that may be absent (a failed parse). */
  datatype Option<T> = None | Some(value: T)

  /** A value or the error that prevented it (a thrown exception). */
  datatype Result<T, E> = Success(value: T) | Failure(error: E)

  /** Success without a value, or an error (a check that may throw). */
  datatype Outcome<E> = Pass | Fail(error: E)
}
