/** The optional value used where the source returns null or a Guava Optional. */
module Wrappers {

  datatype Option<+T> = None | Some(value: T)
}
