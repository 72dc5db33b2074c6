/** Identifiers and the two result shapes every other module uses. */
module Base {
  // A UUID or an opaque token. The system only compares identifiers for
  // equality and, for stable orderings, with `<`.
  type Id = nat

  datatype Option<+T> = None | Some(value: T)

  datatype Result<+T, +E> = Ok(value: T) | Err(error: E)
}
