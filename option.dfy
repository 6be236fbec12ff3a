/** The optional value used across the model. */
module Opt {
  datatype Option<+T> = None | Some(value: T)
}
