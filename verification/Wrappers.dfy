/** The optional value used for nullable columns and partial functions. */
module Wrappers {
  datatype Option<+T> = None | Some(value: T)
}
