/** Optional values and the outcome of an operation that may throw. */
module Wrappers {

  /** A value that may be `null` in the source. */
  datatype Option<+T> = None | Some(value: T)

  /** The result of an operation that either returns a value or throws `error`. */
  datatype Result<+R, +E> = Success(value: R) | Failure(error: E)

  /** The result of an operation that returns nothing or throws `error`. */
  datatype Outcome<+E> = Pass | Fail(error: E)
}
