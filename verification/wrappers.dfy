/** Failure-carrying result types shared by every module of the model. */
module Wrappers {

  /** A value that may be absent: the model's rendering of a Go nil or a missing map entry. */
  datatype Option<+T> = None | Some(value: T)

  /** The Go `(value, error)` pair: exactly one of the two is meaningful. */
  datatype Result<+T, +E> = Ok(value: T) | Err(error: E)
}
