/** The optional value shared by the other modules: a null pointer or a missing entry. */
module Wrappers {
  datatype Option<+T> = None | Some(value: T)
}
