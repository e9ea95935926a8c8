/** Optional values and results with an error. */
module Wrappers {
  /** A JSON field that may be absent (`undefined`), or a lookup that may find nothing. */
  datatype Option<+T> = None | Some(value: T)

  /** A computation that either produces a value or fails with an error. */
  datatype Result<+T, +E> = Ok(value: T) | Err(error: E)
}
