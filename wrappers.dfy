/** An optional value, used across the model. */
module Wrappers {

  /** A value that may be absent: an unset command-line option, a profile that could not be read. */
  datatype Option<+T> = None | Some(value: T)
}
