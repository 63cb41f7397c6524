/** Failure-compatible wrappers used across the model: an optional value
    (Python's `None` or a value) and a result that either carries a value or
    the message of the exception the source raises. */
module Wrappers {

  datatype Option<+T> = None | Some(value: T) {
    function GetOr(default: T): T {
      match this
      case Some(v) => v
      case None => default
    }
  }

  datatype Result<+T> = Ok(value: T) | Err(error: string)
}
