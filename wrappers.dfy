/** Optional values and results shared by the other modules. */
module Wrappers {

  /** `None` plays the role of Python's `None` for an optional value. */
  datatype Option<+T> = None | Some(value: T)

  /** A value or the error that a hard failure propagates to the caller. */
  datatype Result<+R, +E> = Success(value: R) | Failure(error: E)
}
