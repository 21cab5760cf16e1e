/** The optional value used for "this field has an error message, or none". */
module Wrappers {
  datatype Option<+T> = None | Some(value: T)
}
