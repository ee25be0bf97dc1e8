/** Option stands for a C# reference that may be null; Result for an operation
    that either yields a value or throws. */
module Wrappers {

  datatype Option<+T> = None | Some(value: T)

  datatype Result<+R, +E> = Ok(value: R) | Err(error: E)
}
