/** The two failure-carrying results used across the model. */
module Wrappers {

  datatype Option<+T> = None | Some(value: T)

  /** What a store mutator returns: the new value, or the error it raised. */
  datatype Result<+T, +E> = Ok(value: T) | Err(error: E)
}
