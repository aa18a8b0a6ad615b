/** An optional value: a view or a label that may be absent. */
module Wrappers {
  datatype Option<+T> = None | Some(value: T)
}
