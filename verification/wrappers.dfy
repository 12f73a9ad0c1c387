/** Failure-carrying datatypes used throughout the model. */
module Wrappers {

  /** A value that may be absent: JavaScript's `undefined` / `null` for a
      storage key that was never written or an attribute that is missing. */
  datatype Option<+T> = None | Some(value: T)

  /** The outcome of a step that either produces a value or throws. The error
      side carries the `message` of the thrown `Error`. */
  datatype Result<+T, +E> = Ok(value: T) | Err(error: E)
}
