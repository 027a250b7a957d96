/** Option and Result, the two failure-carrying datatypes the model uses
    for values that may be absent and for operations that may throw. */
module Wrappers {

  /** A value that may be absent (`null`/`undefined` on the source side). */
  datatype Option<+T> = None | Some(value: T) {
    /** The value, or `default` when absent (the source's `??`). */
    function GetOr(default: T): T {
      match this
      case Some(v) => v
      case None => default
    }
  }

  /** The outcome of an operation that either returns a value or throws. */
  datatype Result<+R, +E> = Success(value: R) | Failure(error: E) {
    predicate IsFailure() {
      Failure?
    }
  }
}
