/** Optional values and error-carrying results, shared by the account table
    and the window model. */
module Wrappers {

  /** A value that may be absent, as Python's `None` or an object. */
  datatype Option<+T> = None | Some(value: T)

  /** The outcome of a step that either produces a value or fails. */
  datatype Result<+T, +E> = Ok(value: T) | Err(error: E)
}
