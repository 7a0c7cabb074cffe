/** Failure-carrying values shared by the rest of the model. */
module Wrappers {

  /** A value that may be absent: an optional form field, a reader that gave up. */
  datatype Option<+T> = None | Some(value: T)

  /** The outcome of a step that either yields a value or fails with an error. */
  datatype Result<+R, +E> = Success(value: R) | Failure(error: E)
}
