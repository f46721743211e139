/** Optional values and success-or-error results, used throughout the model. */
module Wrappers {

  /** A value that may be absent; `None` stands for a call that raised. */
  datatype Option<+T> = None | Some(value: T)

  /** Either a value or the error that ended the computation. */
  datatype Result<+R, +E> = Success(value: R) | Failure(error: E)
}
