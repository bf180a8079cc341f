/** The optional value used for the record's fields that may be None. */
module Wrappers {
  datatype Option<+T> = None | Some(value: T)
}
