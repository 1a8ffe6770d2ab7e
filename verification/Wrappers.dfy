/** The one wrapper type the model needs for C's NULL results. */
module Wrappers {
  datatype Option<+T> = None | Some(value: T)
}
