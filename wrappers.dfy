/** Option and Result, the two shapes every fallible step of the client returns. */
module Wrappers {

  /** A value that may be absent: JavaScript's `null` / `undefined`. */
  datatype Option<+T> = None | Some(value: T)

  /** A settled promise: resolved with a value or rejected with an error message. */
  datatype Result<+T, +E> = Ok(value: T) | Err(error: E)
}
