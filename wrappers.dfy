/** An optional value, for the steps of a cycle that may produce nothing. */
module Wrappers {
  datatype Option<+T> = None | Some(value: T)
}
