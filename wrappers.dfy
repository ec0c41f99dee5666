/** Outcome types shared by the parsers and the evaluator. */
module Wrappers {

  datatype Option<+T> = None | Some(value: T)

  /** Either the value an operation produced or the reason it stopped. */
  datatype Result<+T, +E> = Ok(value: T) | Err(error: E)
}
