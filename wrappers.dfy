/** The optional value used where the program keeps `None` until a first value arrives. */
module Wrappers {

  datatype Option<T> = None | Some(value: T)
}
