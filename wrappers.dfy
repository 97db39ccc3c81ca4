/** The optional value used for pointers that may be nil and for absent errors. */
module Wrappers {

  datatype Option<+T> = None | Some(value: T)
}
