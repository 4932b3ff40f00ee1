/** Option and Result, the two failure-carrying datatypes the rest of the model uses. */
module Wrappers {

  /** A value that may be absent: None stands for JavaScript's null or undefined. */
  datatype Option<+T> = None | Some(value: T) {
    function GetOr(default: T): T {
      match this
      case Some(v) => v
      case None => default
    }
  }

  /** The result of a computation that may throw: Err carries what was thrown. */
  datatype Result<+T, +E> = Ok(value: T) | Err(error: E)
}
