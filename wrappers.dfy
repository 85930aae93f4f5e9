/** Option and Result values used for the launcher's "absent" and error returns. */
module Wrappers {

  /** A value that may be absent, like Python's `None`. */
  datatype Option<+T> = None | Some(value: T)

  /** Either a value or the reason it could not be produced. */
  datatype Result<+T, +E> = Ok(value: T) | Err(error: E)
}
