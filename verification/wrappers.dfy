/**
 * The optional value used wherever the C code passes a pointer that may be
 * NULL, and the result of an icall that may raise a managed error.
 */
module Wrappers {

  datatype Option<+T> = None | Some(value: T)

  datatype Result<+R, +E> = Success(value: R) | Failure(error: E)
}
