/** The optional value shared by the modules that look something up. */
module Wrappers {

  datatype Option<T> = None | Some(value: T)
}
