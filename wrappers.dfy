/** Helper datatypes shared by the other modules. */
module Wrappers {

  /** A value that may be absent: Python's `None` or a string. */
  datatype Option<+T> = None | Some(value: T)

  /** The result of an operation that either completes or raises an error. */
  datatype Outcome<+E> = Pass | Fail(error: E)
}
