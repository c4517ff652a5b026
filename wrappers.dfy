/** Failure-carrying values: `null`/`undefined` results and rejected inputs. */
module Wrappers {

  /** A value that may be absent (JavaScript `null` or `undefined`). */
  datatype Option<+T> = None | Some(value: T)

  /** A computed value, or the message that the user is shown instead. */
  datatype Result<+T, +E> = Ok(value: T) | Err(error: E)
}
