/** Nullable values and fallible results, as the workflow's handlers use them. */
module Opt {

  /** A nullable value: `None` is JavaScript's `null` (or `undefined`). */
  datatype Option<+T> = None | Some(value: T)

  /** The outcome of a validation that either yields a value or an error message. */
  datatype Result<+T> = Ok(value: T) | Err(error: string)
}
