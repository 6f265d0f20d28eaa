/** The optional value used for "found or not found" answers. */
module Wrappers {

  datatype Option<+T> = None | Some(value: T)
}
