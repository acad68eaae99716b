/** Option, shared by every module that models a nullable field. */
module Wrappers {
  datatype Option<+T> = None | Some(value: T)
}
