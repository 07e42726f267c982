/** Option and Result: the error paths of the modelled services. */
module Wrappers {

  datatype Option<+T> = None | Some(value: T) {
    function GetOr(default: T): T {
      match this
      case Some(v) => v
      case None => default
    }
  }

  /** A raised exception is a Failure carrying the exception's message. */
  datatype Result<+R, +E> = Success(value: R) | Failure(error: E)
}
