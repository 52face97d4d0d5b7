/** Optional values and results with an error, as used across the converter. */
module Wrappers {

  /** A value that may be absent (a JSON key that is not written, or `undefined`). */
  datatype Option<+T> = None | Some(value: T)

  /** The outcome of an operation that may fail with an error of type E. */
  datatype Result<+T, +E> = Ok(value: T) | Err(error: E)
}
