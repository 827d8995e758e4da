/** The optional value used for the nullable state cells and lookups of the application. */
module Wrappers {

  datatype Option<+T> = None | Some(value: T)
}
