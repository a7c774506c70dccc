/** Failure-carrying values shared by the modules of this model. */
module Wrappers {

  /** A value that may be missing: a JavaScript `undefined`. */
  datatype Option<+T> = None | Some(value: T)

  /** The outcome of an operation that either returns a value or fails with an error. */
  datatype Result<+T, +E> = Ok(value: T) | Err(error: E)
}
