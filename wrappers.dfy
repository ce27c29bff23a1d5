/** The optional value returned by a routing decision. */
module Wrappers {

  datatype Option<+T> = None | Some(value: T)
}
