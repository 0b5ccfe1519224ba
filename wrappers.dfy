/** Failure-carrying values shared by every module of the model. */
module Wrappers {

  /** An optional value: Go's nil pointer or "not found". */
  datatype Option<+T> = None | Some(value: T)

  /** A value or an error: Go's `(T, error)` return pair. */
  datatype Result<+T, +E> = Success(value: T) | Failure(error: E) {
    function ToOption(): Option<T>
    {
      match this
      case Success(v) => Some(v)
      case Failure(_) => None
    }
  }
}
