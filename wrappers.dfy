/** Option, Result and Outcome values for the repositories' lookups and error returns. */
module Wrappers {

  datatype Option<T> = None | Some(value: T)

  /** A value or the error a repository operation reports instead. */
  datatype Result<T, E> = Ok(value: T) | Err(error: E)

  /** The outcome of an operation that only reports success or an error (Go's `error`). */
  datatype Outcome<E> = Pass | Fail(error: E)
}
