/** Optional values and results with an error, as used throughout the model. */
module Wrappers {

  /** A value that may be missing: Python's `None` or a dictionary key that is absent. */
  datatype Option<+T> = None | Some(value: T)

  /** The outcome of an operation that raises in the source. */
  datatype Result<+T, +E> = Ok(value: T) | Err(error: E)
}
