/** The conventional optional value, used where the source passes "a value or nothing". */
module Wrappers {
  datatype Option<+T> = None | Some(value: T)
}
