/** Option and Result datatypes: `Option` for Python's `None`-able
    attributes and `Result` for a check that either passes a value on or names
    why it stopped. */
module Wrappers {

  datatype Option<+T> = None | Some(value: T)

  datatype Result<+R, +E> = Success(value: R) | Failure(error: E)
}
