/** Option and Result: Python's None and raised exceptions, made explicit. */
module Wrappers {

  /** A value that may be missing, where the source returns None. */
  datatype Option<+T> = None | Some(value: T)

  /** A value or the error the source would raise instead of returning it. */
  datatype Result<+R, +E> = Success(value: R) | Failure(error: E)
}
