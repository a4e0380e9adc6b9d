/** Option and Result, the two failure-carrying datatypes used throughout the model. */
module Wrappers {

  /** An optional value: a TypeScript field declared with `?`, or a lookup that may miss. */
  datatype Option<+T> = None | Some(value: T) {
    function GetOr(default: T): T {
      match this
      case Some(v) => v
      case None => default
    }
  }

  /** The value of an awaited call, or the error it was rejected with. */
  datatype Result<+T, +E> = Success(value: T) | Failure(error: E)
}
