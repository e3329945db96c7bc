/** The two result shapes shared by the whole model. */
module Wrappers {

  /** Python's `X | None`. */
  datatype Option<+T> = None | Some(value: T)

  /** A value, or the error the source raises instead of one. */
  datatype Result<+T, +E> = Ok(value: T) | Err(error: E)
}
