/** Nullable values and call outcomes: `Option` stands for PHP's nullable
    values and `Result` for a call that either returns or throws. */
module Wrappers {

  /** A nullable value: `None` is PHP's `null`. */
  datatype Option<+T> = None | Some(value: T) {

    /** PHP's `$this ?? $default`. */
    function GetOr(default: T): T
    {
      match this
      case Some(v) => v
      case None => default
    }
  }

  /** The outcome of a call that may throw: `Failure` carries the exception. */
  datatype Result<+T, +E> = Success(value: T) | Failure(error: E)
}
