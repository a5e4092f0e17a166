/** Option and Result: the model's stand-ins for JavaScript's `undefined`/`null`
    and for a rejected promise carrying an `Error` message. */
module Wrappers {

  datatype Option<+T> = None | Some(value: T) {
    function GetOr(default: T): T {
      match this
      case Some(v) => v
      case None => default
    }
  }

  datatype Result<+T, +E> = Success(value: T) | Failure(error: E)
}
