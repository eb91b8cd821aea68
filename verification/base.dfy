/** Failure-compatible wrappers shared by every module of the model. */
module Base {

  /** A value that may be absent: Python's `None` versus a present value. */
  datatype Option<+T> = None | Some(value: T) {
    function GetOr(default: T): T {
      match this
      case Some(v) => v
      case None => default
    }
  }

  /** Either a value or a raised error. */
  datatype Result<+T, +E> = Success(value: T) | Failure(error: E)
}
