/** Option and Result, used for Kotlin's nullable values and thrown exceptions. */
module Wrappers {

  datatype Option<+T> = None | Some(value: T) {
    function GetOr(default: T): T {
      match this
      case Some(v) => v
      case None => default
    }
  }

  /** `Err` carries the message of the exception the Kotlin code throws. */
  datatype Result<+T, +E> = Ok(value: T) | Err(error: E)
}
