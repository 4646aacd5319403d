/** A nullable value: the model of a C pointer or C string that may be NULL. */
module Wrappers {

  datatype Option<+T> = None | Some(value: T)
}
