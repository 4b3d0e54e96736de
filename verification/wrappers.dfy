/** Failure-carrying values shared by every module of the model. */
module Wrappers {

  /** A value that may be absent (Python `None`, a JavaScript `undefined`). */
  datatype Option<+T> = None | Some(value: T) {
    function GetOr(default: T): T {
      match this
      case Some(v) => v
      case None => default
    }
  }

  /** The outcome of a call that may raise: `Err` carries the exception's message. */
  datatype Result<+T> = Ok(value: T) | Err(error: string)
}
