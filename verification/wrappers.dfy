/** Plain datatypes used by the model: an optional value, and the outcome
    of an operation that either yields a value or raises an error carrying
    a message. */
module Wrappers {

  /** A value that may be absent (JavaScript `undefined` or `null`). */
  datatype Option<+T> = None | Some(value: T) {

    /** The value if present, otherwise `default`. */
    function GetOr(default: T): T {
      match this
      case Some(v) => v
      case None => default
    }
  }

  /** Either a value, or the error a JavaScript `throw` would carry. */
  datatype Result<+T, +E> = Success(value: T) | Failure(error: E)
}
