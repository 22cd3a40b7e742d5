/** Failure-carrying datatypes shared by the modules of this model. */
module Wrappers {

  /** An optional value, standing for Rust's `Option<T>`. */
  datatype Option<+T> = None | Some(value: T) {

    /** The value if present, otherwise `default` (Rust's `unwrap_or`). */
    function GetOr(default: T): T {
      match this
      case Some(v) => v
      case None => default
    }
  }

  /** A value or an error, standing for Rust's `Result<T, E>`. */
  datatype Result<+T, +E> = Success(value: T) | Failure(error: E)

  /** Success without a value or an error, standing for Rust's `Result<(), E>`. */
  datatype Outcome<+E> = Pass | Fail(error: E)
}
