/** Optional values and results that may be errors. */
module Wrappers {

  /** A Python value that may be `None`. */
  datatype Option<+T> = None | Some(value: T)

  /** A value, or the error raised instead of producing it. */
  datatype Result<+T, +E> = Ok(value: T) | Err(error: E)
}
