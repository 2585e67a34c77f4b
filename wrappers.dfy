/** Optional values and results, used wherever the source returns `None` or raises. */
module Wrappers {

  /** A Python value that may be `None`. */
  datatype Option<+T> = None | Some(value: T)

  /** The value a call returns, or the error it raises instead. */
  datatype Result<+T, +E> = Ok(value: T) | Err(error: E)
}
