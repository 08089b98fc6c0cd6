/** Failure-carrying values shared by the other modules. */
module Wrappers {

  /** An optional value; Go's nil error is `None`, a non-nil error `Some(message)`. */
  datatype Option<+T> = None | Some(value: T)

  /** A value or the error that prevented it, like Go's `(value, error)` pairs. */
  datatype Result<+T, +E> = Ok(value: T) | Err(error: E)
}
