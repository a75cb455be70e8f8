/** Optional values and results with an error, shared by the two components. */
module Wrappers {

  /** A value that may be absent: `null` or `undefined` in the components. */
  datatype Option<+T> = None | Some(value: T)

  /** The outcome of a computation that may throw. */
  datatype Result<+R, +E> = Success(value: R) | Failure(error: E)
}
