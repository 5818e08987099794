/** Option and Completion, the two failure-carrying datatypes used throughout the model. */
module Wrappers {

  /** A value that may be absent (Python's `None`). */
  datatype Option<+T> = None | Some(value: T)

  /** How a Python call ends: it returns a value or raises an exception. */
  datatype Completion<+R, +E> = Returned(value: R) | Raised(error: E)
}
