/** Optional values and failures shared by the light model and the card model. */
module Wrappers {
  /** A value that may be absent: Python's `None`, JavaScript's `undefined`. */
  datatype Option<T> = None | Some(value: T)

  /** The outcome of an operation that may throw. */
  datatype Result<T, E> = Ok(value: T) | Err(error: E)
}
