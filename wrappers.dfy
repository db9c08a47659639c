/** Failure-compatible wrappers shared by the rest of the model. */
module Wrappers {

  datatype Option<+T> = None | Some(value: T)

  /** The outcome of a Java call that either returns a value or throws. */
  datatype Result<+T, +E> = Ok(value: T) | Err(error: E)
}
