/** The optional value used for an attribute that may not have been written yet. */
module Wrappers {

  datatype Option<+T> = None | Some(value: T)
}
