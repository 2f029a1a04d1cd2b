/** The two result types every component of the model shares. */
module Wrappers {

  /** A value that may be absent: a missing map entry, a nil pointer, a zero time. */
  datatype Option<+T> = None | Some(value: T)

  /** The (value, error) pairs of the program: exactly one of the two is present. */
  datatype Result<+T, +E> = Ok(value: T) | Err(error: E)
}
