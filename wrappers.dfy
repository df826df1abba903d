/** The optional value used throughout the model for JavaScript `null`/`undefined`
    and Java `null` / `Optional.empty()`. */
module Wrappers {

  datatype Option<+T> = None | Some(value: T) {

    /** The value, or `default` when there is none. */
    function GetOr(default: T): T {
      match this
      case Some(v) => v
      case None => default
    }
  }

  /** The outcome of an operation that may throw: a value or the exception's message. */
  datatype Result<+T> = Ok(value: T) | Err(message: string)
}
