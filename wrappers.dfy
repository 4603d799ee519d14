/** An optional value, for buffers and attributes a geometry may lack. */
module Wrappers {
  datatype Option<+T> = None | Some(value: T)
}
