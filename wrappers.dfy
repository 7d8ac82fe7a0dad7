/** Optional values and success/failure results, as the rest of the model uses them. */
module Wrappers {

  datatype Option<+T> = None | Some(value: T)

  /** The outcome of an operation that either completes or raises an error. */
  datatype Outcome<+E> = Pass | Fail(error: E)

  /** A value or the error raised instead of producing it. */
  datatype Result<+T, +E> = Ok(value: T) | Err(error: E)
}
