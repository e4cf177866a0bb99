/** The optional value used wherever the source returns a nil-able pointer or a nil error. */
module Wrappers {

  datatype Option<+T> = None | Some(value: T)
}
