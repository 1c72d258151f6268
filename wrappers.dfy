/** Failure-compatible wrappers for the model's partial operations. */
module Wrappers {
  datatype Option<+T> = None | Some(value: T)

  /** A Python call either returns a value or raises an exception. */
  datatype Result<+T, +E> = Ok(value: T) | Err(error: E)
}
