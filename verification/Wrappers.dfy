/** The usual optional value, shared by every module. */
module Wrappers {
  datatype Option<+T> = None | Some(value: T)
}
