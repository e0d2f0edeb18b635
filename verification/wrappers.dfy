/** Wrappers used to model Python's `None` and raised exceptions. */
module Wrappers {

  /** A value or Python's `None`. */
  datatype Option<+T> = None | Some(value: T)

  /** A normal return carrying a value, or a raised exception. */
  datatype Result<+R, +E> = Success(value: R) | Failure(error: E)
}
