/** Option and Result, used wherever the source returns `undefined`/`null` or throws. */
module Wrappers {

  datatype Option<+T> = None | Some(value: T) {
    function GetOr(default: T): T {
      match this
      case Some(v) => v
      case None => default
    }
  }

  /** `Err` stands for a thrown error; its payload is the error's message or value. */
  datatype Result<+T, +E> = Ok(value: T) | Err(error: E)
}
