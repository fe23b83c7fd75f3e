/** Optional values and results with an error, as the converter's inputs and outputs need them. */
module Wrappers {

  /** A dictionary entry that may be missing (Python's `None` from `dict.get`). */
  datatype Option<+T> = None | Some(value: T)

  /** A value, or the exception that the call raises instead. */
  datatype Result<+R, +E> = Success(value: R) | Failure(error: E)
}
