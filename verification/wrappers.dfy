/** Option and Result, the two failure-carrying datatypes the model uses for Go's
    nil pointers and (value, error) returns, and Go's byte. */
module Wrappers {

  /** A Go pointer or interface that may be nil. */
  datatype Option<+T> = None | Some(value: T)

  /** A Go `(value, error)` pair where exactly one side is meaningful. */
  datatype Result<+T, +E> = Ok(value: T) | Err(error: E)

  /** Go's `byte`. */
  newtype uint8 = x: int | 0 <= x < 256
}
