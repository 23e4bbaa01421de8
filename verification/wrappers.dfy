/** Failure-carrying datatypes shared by the model: Python's `None`-defaulted
    arguments become `Option`, and its exceptions become the `Err` side of a
    `Result`. */
module Wrappers {

  datatype Option<+T> = None | Some(value: T)

  datatype Result<+T, +E> = Ok(value: T) | Err(error: E)
}
