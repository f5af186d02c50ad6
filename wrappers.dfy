/** Failure-compatible wrappers used to model JavaScript's `undefined` and thrown errors. */
module Wrappers {

  /** An optional value: `None` stands for `undefined` (or `null`). */
  datatype Option<+T> = None | Some(value: T)

  /** The result of an operation that either returns a value or throws an error. */
  datatype Result<+R, +E> = Success(value: R) | Failure(error: E)

  /** The result of an operation that returns nothing or throws an error. */
  datatype Outcome<+E> = Pass | Fail(error: E)
}
