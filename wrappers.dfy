/** Option and Result, used for Go's nil-able pointers and (value, error) pairs. */
module Wrappers {

  /** A Go pointer or error: `None` is nil. */
  datatype Option<+T> = None | Some(value: T)

  /** The outcome of a check that either yields a value or fails with a message. */
  datatype Result<+T> = Ok(value: T) | Err(msg: string)
}
