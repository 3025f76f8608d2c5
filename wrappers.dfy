/** Option and Result, the two failure-carrying datatypes every other module uses. */
module Wrappers {

  /** An optional value, in place of `undefined` or `null` in the source. */
  datatype Option<+T> = None | Some(value: T)

  /** A value or the error the source would have thrown instead. */
  datatype Result<+T, +E> = Ok(value: T) | Err(error: E)
}
