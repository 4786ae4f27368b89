/** Optional values and results shared by the other modules. */
module Wrappers {

  /** A value that may be absent: Swift's `T?`. */
  datatype Option<+T> = None | Some(value: T)

  /** The outcome of a call that may throw: Swift's `throws`. */
  datatype Result<+R, +E> = Success(value: R) | Failure(error: E)
}
