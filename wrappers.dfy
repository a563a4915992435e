/** The `Option` datatype shared by the other modules. */
module Wrappers {
  /** A value that may be absent: a missing JSON field, a `reply` that is not there. */
  datatype Option<+T> = None | Some(value: T)
}
