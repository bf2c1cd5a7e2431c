/** Optional values and results with an error, as the handlers' JavaScript
    values `undefined`-or-value and resolved-or-rejected promises. */
module Wrappers {

  datatype Option<+T> = None | Some(value: T) {
    /** `value ?? default`, also the effect of a destructuring default. */
    function GetOr(default: T): T {
      match this
      case Some(v) => v
      case None => default
    }
  }

  datatype Result<+T, +E> = Success(value: T) | Failure(error: E)
}
