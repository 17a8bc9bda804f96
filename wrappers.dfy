/** The optional value used for every cell that may be missing or not a number. */
module Wrappers {

  datatype Option<+T> = None | Some(value: T)
}
