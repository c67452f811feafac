/** Failure-compatible wrappers shared by every module of the model. */
module Wrappers {

  /** Rust's `Option`. */
  datatype Option<+T> = None | Some(value: T) {

    /** The carried value, or `default` when there is none (Rust's `unwrap_or`). */
    function GetOr(default: T): T {
      match this
      case Some(v) => v
      case None => default
    }
  }

  /** Rust's `Result`: a value or an error. */
  datatype Result<+T, +E> = Ok(value: T) | Err(error: E)
}
