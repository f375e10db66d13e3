/** Failure-carrying values shared by the modules of this project. */
module Wrappers {

  /** A lookup that may find nothing, as Python's `dict.get` returning `None`. */
  datatype Option<+T> = None | Some(value: T)

  /** A computation that either yields a value or raises an error. */
  datatype Result<+T, +E> = Ok(value: T) | Err(error: E)
}
