/** Option and Result datatypes used across the model: a nullable value and a
    value-or-error outcome (what a thrown exception becomes). */
module Wrappers {

  /** A value that may be absent (TypeScript's `T | null`). */
  datatype Option<+T> = None | Some(value: T)

  /** Either a value or the message of the error raised instead. */
  datatype Result<+T, +E> = Ok(value: T) | Err(error: E)
}
