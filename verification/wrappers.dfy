/** Failure-compatible wrappers used throughout the model: `Option` for Swift's
    optionals and `Result` for a value-or-thrown-error outcome. */
module Wrappers {

  /** Swift's `T?`: either no value or some value. */
  datatype Option<+T> = None | Some(value: T) {

    /** Swift's `??`: this value if present, otherwise `fallback`. */
    function OrElse(fallback: Option<T>): Option<T>
    {
      match this
      case Some(_) => this
      case None => fallback
    }
  }

  /** The outcome of a Swift `throws` call: a value or the error it threw. */
  datatype Result<+R, +E> = Success(value: R) | Failure(error: E)
}
