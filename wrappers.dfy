/** Option and Result: the absent value and the thrown error of the application, as values. */
module Wrappers {

  datatype Option<+T> = None | Some(value: T) {
    function GetOr(default: T): T {
      match this
      case Some(v) => v
      case None => default
    }
  }

  /** A call that either returns a value or throws (raises) an error. */
  datatype Result<+T, +E> = Ok(value: T) | Err(error: E)
}
