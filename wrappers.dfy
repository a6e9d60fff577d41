/** The Option and Result values used throughout the model. */
module Wrappers {

  /** A value that may be absent (Rust's `Option`). */
  datatype Option<T> = None | Some(value: T)

  /** A value or an error (Rust's `Result`, or a call that may panic). */
  datatype Result<T, E> = Success(value: T) | Failure(error: E)
}
