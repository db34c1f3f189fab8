/** The two result shapes shared by the models. */
module Wrappers {
  /** A value that may be absent: a nullable column, a missing key, a lookup that finds nothing. */
  datatype Option<+T> = None | Some(value: T)

  /** A value, or the error the source throws or returns instead. */
  datatype Result<+T, +E> = Ok(value: T) | Err(error: E)
}
