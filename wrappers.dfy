/** Failure-carrying values shared by the modules of this project: a value that
    may be absent (JavaScript's `undefined`/`null`), a computation that returns
    or throws, and a check that passes or throws. */
module Wrappers {

  datatype Option<+T> = None | Some(value: T)

  datatype Result<+T, +E> = Success(value: T) | Failure(error: E)

  datatype Outcome<+E> = Pass | Fail(error: E)
}
