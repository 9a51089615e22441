/** The `Option` and `Result` datatypes used by the cache model. */
module Wrappers {

  /** A value that may be absent: a cache file that does not exist, a source file
      whose modification time cannot be read. */
  datatype Option<+T> = None | Some(value: T)

  /** The outcome of a call that may fail: either a value or the error it raised. */
  datatype Result<+T, +E> = Success(value: T) | Failure(error: E)
}
