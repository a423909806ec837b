/** The optional value that `as_mut` hands back. */
module Wrappers {
  datatype Option<+T> = None | Some(value: T)
}
