/** The optional-value type used for the fields a caller may leave out. */
module Wrappers {

  datatype Option<+T> = None | Some(value: T)
}
