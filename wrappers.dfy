/** Failure-compatible wrappers shared by the other modules. */
module Wrappers {

  /** An optional value: Python's None, or a C++ "not found". */
  datatype Option<+T> = None | Some(value: T)

  /** A value or the error that stopped the computation (a raised exception). */
  datatype Result<+T, +E> = Success(value: T) | Failure(error: E)
}
