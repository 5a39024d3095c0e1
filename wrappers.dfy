/** Small failure-carrying datatypes shared by the other modules. */
module Wrappers {

  /** A value that may be absent: a missing document, a string `int()` rejects. */
  datatype Option<+T> = None | Some(value: T)

  /** Either a value or the reason a request aborted. */
  datatype Result<+T, +E> = Ok(value: T) | Err(error: E)
}
