/** Failure-aware result types shared by every model. */
module Wrappers {

  datatype Option<+T> = None | Some(value: T)

  /** A call that either returns a value or raises one of the source's errors. */
  datatype Result<+T, +E> = Ok(value: T) | Err(error: E)
}
