/** Failure-carrying result types shared by the whole model. */
module Wrappers {

  /** A value that may be absent (JavaScript `null`/`undefined`, a failed parse). */
  datatype Option<+T> = None | Some(value: T)

  /** The outcome of an operation that may throw: `Err` carries the error message. */
  datatype Result<+T> = Ok(value: T) | Err(msg: string)
}
