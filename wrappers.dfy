/** The optional value used where the Go code has a nil pointer or a nil slice. */
module Wrappers {
  datatype Option<+T> = None | Some(value: T)
}
