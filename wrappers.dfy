/** Optional values and error outcomes: null handles and exceptions become values. */
module Wrappers {

  /** A value that may be absent; `None` plays the part of a null reference-counted handle. */
  datatype Option<+T> = None | Some(value: T)

  /** A computation that produced a value or failed with an error. */
  datatype Result<+T, +E> = Success(value: T) | Failure(error: E)

  /** An operation that returns nothing on success, or failed with an error. */
  datatype Outcome<+E> = Pass | Fail(error: E)
}
