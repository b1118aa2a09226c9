/** Failure-carrying values used across the model. */
module Wrappers {

  /** Python's `None`-or-value. */
  datatype Option<+T> = None | Some(value: T) {
    function GetOr(default: T): T {
      match this
      case Some(v) => v
      case None => default
    }
  }

  /** A value, or the error a Python call would raise or report. */
  datatype Result<+T, +E> = Ok(value: T) | Err(error: E)
}
