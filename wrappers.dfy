/** Optional values and success-or-failure results, used for every call into the store. */
module Wrappers {

  /** Python's `None` or a present value. */
  datatype Option<+T> = None | Some(value: T)

  /** The outcome of a call that either succeeds with a value or raises an error. */
  datatype Result<+T, +E> = Ok(value: T) | Failure(error: E)
}
