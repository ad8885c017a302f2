/** Failure-carrying values shared by every module of the model. */
module Wrappers {

  /** A value that may be absent: Python's `None`, Rust's `Option`. */
  datatype Option<+T> = None | Some(value: T) {
    function GetOr(default: T): T {
      match this
      case Some(v) => v
      case None => default
    }
  }

  /** The outcome of a call that may fail: Rust's `Result`, or a Python call that may raise. */
  datatype Result<+T, +E> = Ok(value: T) | Err(error: E)
}
