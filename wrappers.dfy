/** The optional value used wherever the source has a nullable reference or an early return. */
module Wrappers {

  datatype Option<+T> = None | Some(value: T)
}
