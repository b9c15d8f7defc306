/** Nullable values and thrown errors, as the TypeScript code uses them. */
module Wrappers {

  /** A value that may be `undefined` or `null`. */
  datatype Option<+T> = None | Some(value: T) {

    /** The `??` operator: the value when present, otherwise `default`. */
    function GetOr(default: T): T {
      match this
      case Some(v) => v
      case None => default
    }
  }

  /** The outcome of a function that may throw. */
  datatype Result<+T, +E> = Success(value: T) | Failure(error: E)
}
