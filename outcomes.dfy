/** Option and Result used across the model. */
module Outcomes {

  /** A value that may be missing, as an `undefined` property of the source. */
  datatype Option<+T> = None | Some(value: T) {
    function GetOr(default: T): T {
      match this
      case Some(v) => v
      case None => default
    }
  }

  /** Either a value or the reason the run stopped. */
  datatype Result<+T, +E> = Ok(value: T) | Err(error: E)
}
