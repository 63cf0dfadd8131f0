/** An optional value: the model's stand-in for a nullable reference. */
module Wrappers {
  datatype Option<+T> = None | Some(value: T)
}
