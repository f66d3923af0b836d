/** Option and Result, the two shapes the model uses for Swift optionals,
    Python exceptions and completion-handler results. */
module Wrappers {

  datatype Option<+T> = None | Some(value: T) {
    /** `x ?? default` in Swift, `x or default` in spirit. */
    function GetOr(default: T): T {
      match this
      case Some(v) => v
      case None => default
    }
  }

  datatype Result<+R, +E> = Success(value: R) | Failure(error: E)
}
