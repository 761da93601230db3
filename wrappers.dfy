/** Option and Result values for operations that can fail. */
module Wrappers {

  datatype Option<+T> = None | Some(value: T) {
    function GetOr(default: T): T {
      match this
      case Some(v) => v
      case None => default
    }
  }

  /** The outcome of a step that either yields a value or fails with a message. */
  datatype Result<+T> = Ok(value: T) | Err(error: string)
}
