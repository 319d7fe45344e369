/** Failure-carrying datatypes shared by the whole model: `Option` for a value
    that may be absent (pandas' missing value, Python's `None`) and `Result` for
    an operation that raises. */
module Wrappers {

  datatype Option<+T> = None | Some(value: T)

  datatype Result<+R, +E> = Success(value: R) | Failure(error: E)
}
