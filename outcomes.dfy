/** Option and Result values standing for Go's nil pointers and (value, error) returns. */
module Outcomes {

  datatype Option<+T> = None | Some(value: T)

  /** A Go `(value, err)` pair: `Ok` when err is nil, `Err` otherwise. */
  datatype Result<+T, +E> = Ok(value: T) | Err(error: E)
}
