/** Option and Result, the models of Go's nil pointers and (value, error) pairs,
    and the byte type shared by the byte-level modules. */
module Wrappers {

  /** A Go pointer or interface value that may be nil. */
  datatype Option<+T> = None | Some(value: T)

  /** A Go `(value, err)` return: exactly one of the two is meaningful. */
  datatype Result<+T, +E> = Success(value: T) | Failure(error: E)

  /** An unsigned 8-bit value, Go's `byte`. */
  newtype byte = x: int | 0 <= x < 256
}
