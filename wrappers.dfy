/** Failure-carrying values in the shape the engine's Rust signatures use. */
module Wrappers {

  datatype Option<+T> = None | Some(value: T)

  /** `Result<T, E>`: `Ok(value)` on success, `Err(error)` on failure. */
  datatype Result<+T, +E> = Ok(value: T) | Err(error: E)
}
