/** Option and Result, the two failure-carrying wrappers the model uses.
    Errors are the message strings the Go code carries in its `error` values. */
module Wrappers {

  datatype Option<+T> = None | Some(value: T)

  datatype Result<+T> = Ok(value: T) | Err(error: string)
}
