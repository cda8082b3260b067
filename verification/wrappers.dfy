/** Optional values and success/failure results, as used by the device model. */
module Wrappers {

  /** A value that may be absent (`undefined` in the component's props). */
  datatype Option<+T> = None | Some(value: T)

  /** The outcome of a call that either yields a value or fails with an error. */
  datatype Result<+R, +E> = Success(value: R) | Failure(error: E)
}
