/** Option and Result, the two failure-carrying shapes the model uses. */
module Wrappers {

  /** An optional value. In the JSON model `None` stands for JavaScript's `undefined`. */
  datatype Option<+T> = None | Some(value: T) {
    function GetOr(default: T): T {
      match this
      case Some(v) => v
      case None => default
    }
  }

  /** The outcome of an operation that either yields a value or throws. */
  datatype Result<+R, +E> = Success(value: R) | Failure(error: E)
}
