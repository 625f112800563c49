/** Option and Result values standing for JavaScript's `undefined` results and thrown errors. */
module Wrappers {

  datatype Option<+T> = None | Some(value: T) {
    function GetOr(default: T): T {
      match this
      case Some(v) => v
      case None => default
    }
  }

  /** The outcome of a call that either returns a value or throws an error carrying a message. */
  datatype Result<+T> = Ok(value: T) | Err(message: string)
}
