/** The optional value used for queries that may find nothing. */
module Wrappers {

  datatype Option<T> = None | Some(value: T)
}
