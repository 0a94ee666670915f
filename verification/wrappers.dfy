/** Optional values, and results that carry an error instead. */
module Wrappers {

  /** A value that may be absent (`null` in the source). */
  datatype Option<+T> = None | Some(value: T)

  /** A value, or the error the source would throw instead. */
  datatype Result<+T, +E> = Ok(value: T) | Err(error: E)
}
