/** Optional values and results with an error, used by every module of the model. */
module Wrappers {

  /** A value that may be absent (a TypeScript `undefined` or `null`). */
  datatype Option<+T> = None | Some(value: T)

  /** The outcome of a handler: a value, or the error it throws. */
  datatype Result<+T, +E> = Ok(value: T) | Err(error: E)
}
