/** A value that may be absent: JavaScript's `null` for the fields this model carries. */
module Wrappers {
  datatype Option<+T> = None | Some(value: T)
}
