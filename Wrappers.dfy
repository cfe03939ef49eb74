/** Absence and failure as values: `Option` stands for a JavaScript value that may be
    `null`/`undefined`, `Result` for a call that either returns or throws. */
module Wrappers {

  datatype Option<+T> = None | Some(value: T) {
    function GetOr(default: T): T {
      match this
      case Some(v) => v
      case None => default
    }
  }

  datatype Result<+R, +E> = Ok(value: R) | Err(error: E)
}
