/** Optional values and error-carrying results used across the model.

    `Option` stands for the JavaScript values that may be absent (`undefined`,
    `null`) and are read with `x || default`; `Result` stands for a computation
    that may throw. */
module Wrappers {

  datatype Option<+T> = None | Some(value: T) {

    /** The value, or `default` when absent: JavaScript's `x || default` for
        fields whose falsy values coincide with the default. */
    function GetOr(default: T): T {
      match this
      case Some(v) => v
      case None => default
    }
  }

  /** Either a value or the error a JavaScript `throw` would have raised. */
  datatype Result<+R, +E> = Success(value: R) | Failure(error: E)
}
