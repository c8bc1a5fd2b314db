/** Failure-carrying datatypes shared by the whole model. */
module Wrappers {

  /** A value that may be missing; stands for Python's `None` or an exception a caller swallows. */
  datatype Option<+T> = None | Some(value: T)

  /** A Python call that either returns a value or raises an exception of kind `E`. */
  datatype Result<+R, +E> = Ok(value: R) | Err(error: E)
}
