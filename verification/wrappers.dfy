/** Optional values and the Ok/Err outcome of the client's validators. */
module Wrappers {

  /** A value that may be absent (JavaScript `undefined` or `null`). */
  datatype Option<+T> = None | Some(value: T) {

    function GetOr(default: T): T {
      match this
      case Some(v) => v
      case None => default
    }
  }

  /** The outcome of a check that either yields a value or fails with the
      message the client would display. */
  datatype Result<+T> = Ok(value: T) | Err(message: string) {

    predicate IsFailure() {
      Err?
    }
  }
}
