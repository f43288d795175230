/** The optional values and the fallible results used throughout the model. */
module Wrappers {

  datatype Option<+T> = None | Some(value: T)

  /** A call's answer: a value, or the error handed back to the caller. */
  datatype Result<+T, +E> = Ok(value: T) | Err(error: E)
}
