/** Option and Result, the two failure-carrying shapes the client uses in place of
    Rust's `Option<T>` and `anyhow::Result<T>`. */
module Wrappers {

  datatype Option<+T> = None | Some(value: T) {
    /** Rust's `unwrap_or`. */
    function UnwrapOr(default: T): T {
      match this
      case Some(v) => v
      case None => default
    }
  }

  datatype Result<+R, +E> = Success(value: R) | Failure(error: E)
}
