/** The optional value used for the null marker of a table cell and for an undefined mean. */
module Wrappers {

  datatype Option<+T> = None | Some(value: T)
}
