/** The optional value used for Go's nil-able results: a nil error, an unwritten response, an unset header. */
module Wrappers {
  datatype Option<+T> = None | Some(value: T)
}
