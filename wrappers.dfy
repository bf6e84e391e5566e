/** Option and Result, shared by the game-side and client-side modules. */
module Wrappers {

  /** A value that may be absent: a null pointer in the modelled code. */
  datatype Option<+T> = None | Some(value: T)

  /** Either a value or an error: a call that reaches an engine error or a log line. */
  datatype Result<+R, +E> = Ok(value: R) | Err(error: E)
}
