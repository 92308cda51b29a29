/** The optional value used for the framework's null references. */
module Wrappers {
  datatype Option<+T> = None | Some(value: T)
}
