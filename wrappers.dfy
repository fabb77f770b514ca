/** Plain carriers for the optional results and the raised errors of the tool. */
module Wrappers {

  /** Python's `Optional[T]`: `None` or a present value. */
  datatype Option<+T> = None | Some(value: T)

  /** A value, or the exception an operation would raise. */
  datatype Result<+T, +E> = Ok(value: T) | Err(error: E)
}
