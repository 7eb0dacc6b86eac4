/** Optional values and results shared by the model. */
module Wrappers {

  /** A value that may be absent: Java's null reference, or a missing map entry. */
  datatype Option<+T> = None | Some(value: T)

  /** A computation that either produced a value or failed with an error. */
  datatype Result<+T, +E> = Success(value: T) | Failure(error: E)
}
