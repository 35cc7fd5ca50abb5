/** Option and Result values standing in for JavaScript's `undefined` and thrown `Error`s. */
module Wrappers {

  datatype Option<+T> = None | Some(value: T) {
    function GetOr(default: T): T {
      match this
      case Some(v) => v
      case None => default
    }
  }

  /** `Err(message)` is a thrown `Error` whose `message` is `message`. */
  datatype Result<+T> = Ok(value: T) | Err(error: string)
}
