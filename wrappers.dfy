/** Option, the usual "a value or nothing" wrapper. */
module Wrappers {
  datatype Option<+T> = None | Some(value: T)
}
