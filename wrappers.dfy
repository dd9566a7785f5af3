/** The optional-value datatype used for "this helper made no choice". */
module Wrappers {
  datatype Option<+T> = None | Some(value: T)
}
