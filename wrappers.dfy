/** Option and Result values for lookups that may miss and operations that may fail. */
module Wrappers {

  /** An absent or present value: JavaScript's `undefined`/`null` versus a found record. */
  datatype Option<+T> = None | Some(value: T) {

    /** The value if present, otherwise the default: `x || d` on an object-or-nothing. */
    function GetOr(default: T): T {
      match this
      case Some(v) => v
      case None => default
    }
  }

  /** Success carries a value; failure carries the message of the `Error` the source throws. */
  datatype Result<+T> = Ok(value: T) | Err(error: string)
}
