/** The carrier the models use for a missing value. */
module Wrappers {
  datatype Option<+T> = None | Some(value: T)
}
