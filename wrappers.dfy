/** Option and Result values shared by the modules of this model. */
module Wrappers {

  /** A value that may be absent: JavaScript's `null`/`undefined`, Python's `None`. */
  datatype Option<+T> = None | Some(value: T) {
    function GetOr(default: T): T {
      match this
      case Some(v) => v
      case None => default
    }
  }

  /** Either a result or the error that replaced it. */
  datatype Result<+R, +E> = Success(value: R) | Failure(error: E)
}
