/** Failure-compatible return values used throughout the model. */
module Wrappers {

  datatype Option<+T> = None | Some(value: T)

  /** Go's `(value, error)` pairs: either a value or an error message. */
  datatype Result<+T> = Success(value: T) | Failure(error: string)
}
