/** `Option` stands for a C# nullable reference (None is null); `Result`
    for an operation that either yields a value or names why it failed. */
module Wrappers {

  datatype Option<+T> = None | Some(value: T)

  datatype Result<+R, +E> = Success(value: R) | Failure(error: E)
}
