/** Option and Result values standing in for `null`/`undefined` and for thrown errors. */
module Wrappers {

  /** A value that may be missing (`T | undefined` or `T | null` in the source). */
  datatype Option<+T> = None | Some(value: T) {

    /** The value, or `default` when missing (the `??` operator). */
    function GetOr(default: T): T {
      match this
      case Some(v) => v
      case None => default
    }
  }

  /** Either a value, or the error the source would throw. */
  datatype Result<+T, +E> = Ok(value: T) | Err(error: E)
}
