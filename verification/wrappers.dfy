/** Failure-carrying values shared by every module of the model. */
module Wrappers {

  datatype Option<+T> = None | Some(value: T)

  /** stout's `Try<T>` (and a completed `Future<T>`): a value or an error. */
  datatype Result<+T, +E> = Ok(value: T) | Err(error: E)

  /** stout's `Nothing`: the value of an operation that only succeeds or fails. */
  datatype Nothing = Nothing
}
