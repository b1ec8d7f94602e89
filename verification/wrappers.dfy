/** Option and Result values used where the client receives "maybe" values or catches exceptions. */
module Wrappers {

  /** A value that may be absent (Python's `None`). */
  datatype Option<+T> = None | Some(value: T)

  /** The outcome of an operation that either returns a value or raises with a message. */
  datatype Result<+T, +E> = Ok(value: T) | Err(error: E)
}
