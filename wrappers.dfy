/** Option and Result: the "null or a value" and "value or error" shapes of the server. */
module Wrappers {

  /** `T | null` in the source. */
  datatype Option<+T> = None | Some(value: T)

  /** A successful parse or the list of problems that made it fail. */
  datatype Result<+T, +E> = Ok(value: T) | Err(error: E)
}
