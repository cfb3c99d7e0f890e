/** The optional value used for storage lookups and partial results. */
module Wrappers {

  datatype Option<+T> = None | Some(value: T)
}
