/** Option and Result, the failure-carrying wrappers used throughout the model. */
module Wrappers {

  /** A value that may be absent (`undefined` / `null` in the client). */
  datatype Option<+T> = None | Some(value: T) {
    function GetOr(default: T): T {
      match this
      case Some(v) => v
      case None => default
    }
  }

  /** The outcome of an operation that can throw: `Ok` or the rejected error. */
  datatype Result<+T, +E> = Ok(value: T) | Err(error: E)
}
