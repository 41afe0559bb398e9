/** Optional values and results with an error, for the `null`/`undefined`
    cases and the thrown errors of the application. */
module Wrappers {
  datatype Option<+T> = None | Some(value: T)

  datatype Result<+T, +E> = Ok(value: T) | Err(error: E)
}
