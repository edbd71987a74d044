/** Small shared datatypes. */
module Wrappers {
  /** A value that may be absent: a Go nil pointer, a nil interface, a missing key. */
  datatype Option<+T> = None | Some(value: T)
}
