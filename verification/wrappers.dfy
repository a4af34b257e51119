/** The optional-value datatype used for Swift's `Optional`. */
module Wrappers {

  /** Swift's `T?`: either no value (`nil`) or some value. */
  datatype Option<+T> = None | Some(value: T) {

    /** Returns the wrapped value, or `default` when there is none (Swift's `??`). */
    function GetOr(default: T): T {
      match this
      case Some(v) => v
      case None => default
    }
  }
}
