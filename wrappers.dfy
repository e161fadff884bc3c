/** The Some/None datatype that stands for a possibly-NULL C pointer. */
module Wrappers {

  datatype Option<+T> = None | Some(value: T)
}
