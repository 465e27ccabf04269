/** Failure-carrying values shared by the modules of this project: `Option` for
    a C# reference that may be null, `Result` for an operation that either returns
    a value or throws, and `Outcome` for a `void` operation that may throw. */
module Wrappers {

  datatype Option<+T> = None | Some(value: T)

  datatype Result<+R, +E> = Success(value: R) | Failure(error: E)

  datatype Outcome<+E> = Pass | Fail(error: E)
}
