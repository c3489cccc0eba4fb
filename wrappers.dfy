/** Failure-carrying wrappers used throughout the model. */
module Wrappers {

  datatype Option<+T> = None | Some(value: T)

  /** Success, or the value a JavaScript `throw` (or a rejected promise) carries. */
  datatype Result<+R, +E> = Ok(value: R) | Err(error: E)
}
