/** The optional-value datatype used for "no match" and "could not open". */
module Wrappers {

  datatype Option<+T> = None | Some(value: T)
}
