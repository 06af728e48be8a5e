/** Option and Result values used throughout the model, in place of
    JavaScript's `undefined`/`null` and thrown errors. */
module Wrappers {

  datatype Option<+T> = None | Some(value: T) {
    function GetOr(default: T): T {
      match this
      case Some(v) => v
      case None => default
    }
  }

  /** The outcome of an operation that can throw: its value, or the error message. */
  datatype Result<+T> = Ok(value: T) | Err(message: string)
}
