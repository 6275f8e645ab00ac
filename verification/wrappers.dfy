/** Optional values and success-or-error results shared by the scoring modules. */
module Wrappers {

  datatype Option<+T> = None | Some(value: T)

  /** Either a computed value or the error the scorer would raise instead. */
  datatype Result<+R, +E> = Success(value: R) | Failure(error: E)
}
