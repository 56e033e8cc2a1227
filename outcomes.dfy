/** Optional values and results with an error, shared by every module of the model. */
module Outcomes {

  datatype Option<+T> = None | Some(value: T) {
    /** The wrapped value, or `default` when there is none (PHP's `??`). */
    function GetOr(default: T): T {
      match this
      case Some(v) => v
      case None => default
    }
  }

  /** The outcome of an operation that may raise an exception: a value, or the reason it threw. */
  datatype Result<+T, +E> = Ok(value: T) | Err(error: E)
}
