/** The optional value used where Go code returns a nil-able result. */
module Wrappers {

  datatype Option<+T> = None | Some(value: T)
}
