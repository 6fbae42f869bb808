/** Option and Result datatypes shared by the modules of the model. */
module Wrappers {

  /** A value that may be absent (JavaScript's `null` / `undefined`). */
  datatype Option<+T> = None | Some(value: T)

  /** A computation that either produced a value or raised an error, whose
      string form (`${err}`) is kept. */
  datatype Result<+T> = Ok(value: T) | Err(error: string)
}
