/** Failure-carrying values used across the model: a missing value and an operation that may throw. */
module Wrappers {

  datatype Option<+T> = None | Some(value: T) {
    function GetOr(default: T): T {
      match this
      case Some(v) => v
      case None => default
    }
  }

  /** `Failure` stands for a thrown exception (or an error response) of the source. */
  datatype Result<+T, +E> = Success(value: T) | Failure(error: E)
}
