/** Failure-compatible wrappers used throughout the model. */
module Wrappers {

  datatype Option<+T> = None | Some(value: T) {
    function GetOr(default: T): T {
      match this
      case Some(v) => v
      case None => default
    }
  }

  /** The Go convention `(value, error)`: exactly one of the two is meaningful. */
  datatype Result<+T, +E> = Success(value: T) | Failure(error: E) {
    function ToOption(): Option<T> {
      match this
      case Success(v) => Some(v)
      case Failure(_) => None
    }
  }
}
