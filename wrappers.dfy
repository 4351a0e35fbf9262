/** The optional value used where the source has an attribute that may be absent or None. */
module Wrappers {
  datatype Option<+T> = None | Some(value: T)
}
