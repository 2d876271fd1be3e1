/** Option and Result values standing in for Go's nil pointers and (value, error) pairs. */
module Wrappers {

  /** A nil-able value: `None` is Go's nil. */
  datatype Option<+T> = None | Some(value: T)

  /** A Go (value, error) pair: exactly one of the two is set. The error is kept as its message. */
  datatype Result<+T> = Ok(value: T) | Err(message: string)
}
