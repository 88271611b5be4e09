/** Optional values and failure-carrying results used throughout the model. */
module Wrappers {

  /** A value that may be absent: a missing key of a JSON object or a TOML table. */
  datatype Option<+T> = None | Some(value: T)

  /** A computation that either returns a value or raises an exception. */
  datatype Result<+T, +E> = Ok(value: T) | Err(error: E)
}
