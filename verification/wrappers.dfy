/** Failure-carrying result types shared by the model. */
module Wrappers {
  datatype Option<+T> = None | Some(value: T)

  /** A computation that either yields a value or raises one of the library's errors. */
  datatype Result<+T, +E> = Ok(value: T) | Err(error: E)
}
