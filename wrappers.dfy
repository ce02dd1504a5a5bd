/** The optional value used for operations of the source that either produce
    a value or raise (or, for a lookup, find nothing). */
module Wrappers {

  datatype Option<+T> = None | Some(value: T)
}
