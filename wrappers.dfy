/** Optional values; a missing sample (NaN) or an absent frame is None. */
module Wrappers {

  datatype Option<+T> = None | Some(value: T)

  /** Outcome of an operation that can raise one of the source's exceptions. */
  datatype Result<+R, +E> = Ok(value: R) | Err(error: E)
}
