/**
 * The optional value used wherever the source has `null`, `undefined` or an
 * absent field, and the result of a step that may throw.
 */
module Wrappers {

  datatype Option<+T> = None | Some(value: T)

  datatype Result<+T, +E> = Ok(value: T) | Err(error: E)
}
