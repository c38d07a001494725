/** Option and Result, the two failure-carrying datatypes the model uses. */
module Wrappers {

  /** A value that may be absent (JavaScript's `null`). */
  datatype Option<+T> = None | Some(value: T)

  /** Either a value or an error description (a thrown JavaScript exception). */
  datatype Result<+T, +E> = Ok(value: T) | Err(error: E)
}
