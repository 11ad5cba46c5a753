/** The Option type used throughout the model for "null or a value". */
module Wrappers {
  datatype Option<+T> = None | Some(value: T)
}
