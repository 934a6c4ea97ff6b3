/** Option and Result, standing for TypeScript's optional fields and thrown errors. */
module Wrappers {

  /** An optional value: `None` is an absent (`undefined`/`null`) field or signal. */
  datatype Option<+T> = None | Some(value: T)

  /** The settled state of a promise: a value, or an `Error` carrying its `message`. */
  datatype Result<+T> = Ok(value: T) | Err(message: string)
}
