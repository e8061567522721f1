/** Option and Result, the two wrappers the model threads its lookups and failures through. */
module Wrappers {

  datatype Option<+T> = None | Some(value: T)

  /** The outcome of a library call that may raise: `Err` carries the exception's text. */
  datatype Result<+T> = Ok(value: T) | Err(error: string)
}
