/** Option and Result, the two wrappers the model uses for absent JSON fields
    and for calls that either succeed or throw. */
module Wrappers {

  /** A JSON field that may be absent (undefined or null) or present. */
  datatype Option<+T> = None | Some(value: T)

  /** The outcome of a call that either returns a value or throws with a message. */
  datatype Result<+T, +E> = Ok(value: T) | Err(error: E)
}
