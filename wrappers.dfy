// Optional values and error-or-value results shared by the whole model.
module Wrappers {

  /** A value that may be absent: a missing JSON field, an unset query parameter. */
  datatype Option<+T> = None | Some(value: T) {
    function GetOr(default: T): T {
      match this
      case Some(v) => v
      case None => default
    }
  }

  /** The outcome of an operation that either produces a value or reports an error. */
  datatype Result<+T, +E> = Success(value: T) | Failure(error: E)
}
