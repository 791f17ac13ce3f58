/** The optional value used where the source has a nullable value or a lookup that can miss. */
module Wrappers {

  datatype Option<+T> = None | Some(value: T)
}
