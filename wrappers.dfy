/** Option and Result, shared by the client and the server models. */
module Wrappers {

  /** A value that may be absent: `null`/`undefined` in the client, `None` or SQL NULL in the server. */
  datatype Option<+T> = None | Some(value: T)

  /** The outcome of an operation that may fail with an error value. */
  datatype Result<+T, +E> = Ok(value: T) | Err(error: E)
}
