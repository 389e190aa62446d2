/** Option and Result, the shapes of the services' `undefined`/`null` returns and thrown errors. */
module Wrappers {

  /** A value that may be absent, as a `T | undefined` return. */
  datatype Option<+T> = None | Some(value: T)

  /** Either a value or an error that the source raises with `throw` (or signals with `null`). */
  datatype Result<+T, +E> = Ok(value: T) | Err(error: E)
}
