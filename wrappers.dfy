/** Nullable values (SQL NULL, JavaScript null/undefined) and operations that may fail. */
module Wrappers {

  /** A column value that may be NULL. */
  datatype Option<+T> = None | Some(value: T) {
    function GetOr(default: T): T {
      match this
      case Some(v) => v
      case None => default
    }
  }

  /** The outcome of an operation that either returns a value or throws an error with a message. */
  datatype Result<+T> = Ok(value: T) | Err(message: string)
}
