/** The optional value used where the backend may have nothing to work on. */
module Wrappers {

  datatype Option<+T> = None | Some(value: T)
}
