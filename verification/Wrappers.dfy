/** The value-or-nothing datatype that stands for the source's nil pointers. */
module Wrappers {
  datatype Option<+T> = None | Some(value: T)
}
