/** Option and Result, the shapes used throughout the model for Python's
    `None` and for operations that raise. */
module Wrappers {

  datatype Option<+T> = None | Some(value: T) {
    function GetOr(default: T): T {
      match this
      case Some(v) => v
      case None => default
    }
  }

  /** `Err` carries the text of the exception the source would raise. */
  datatype Result<+T> = Ok(value: T) | Err(message: string)
}
