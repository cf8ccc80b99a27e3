/** The optional value used for JSON nulls, absent keys and Python's None. */
module Wrappers {

  datatype Option<+T> = None | Some(value: T)
}
