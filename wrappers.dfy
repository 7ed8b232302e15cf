/** Failure-carrying result types shared by the whole model. */
module Wrappers {

  /** A value that may be absent: a JavaScript `undefined`/`null`, a missing key. */
  datatype Option<+T> = None | Some(value: T) {
    function GetOr(default: T): T {
      match this
      case Some(v) => v
      case None => default
    }
  }

  /** The outcome of an operation that can fail with an error value. */
  datatype Result<+T, +E> = Ok(value: T) | Err(error: E)
}
