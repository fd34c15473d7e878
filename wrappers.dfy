/** The optional value used for an empty board square and for a lookup that fails. */
module Wrappers {

  datatype Option<+T> = None | Some(value: T)
}
