/** The result types shared by the other modules: a value that may be missing, and a value or an error. */
module Outcome {

  datatype Option<+T> = None | Some(value: T)

  datatype Result<+T, +E> = Ok(value: T) | Err(error: E)
}
