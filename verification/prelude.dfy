/** Small value wrappers shared by the whole model. */
module Prelude {

  /** A JavaScript value that may be `null`/`undefined`. */
  datatype Option<+T> = None | Some(value: T)

  /** The outcome of an operation that may throw: a value or the thrown message. */
  datatype Result<+T> = Ok(value: T) | Err(message: string)
}
