/** Failure-compatible wrappers: a value that may be absent (JavaScript's
    `null`/`undefined`) and the outcome of a request to the remote service. */
module Wrappers {

  datatype Option<+T> = None | Some(value: T)

  /** The outcome of an HTTP request: the decoded body, or the rejection the
      client catches. */
  datatype Result<+T> = Ok(value: T) | Err(message: string)
}
