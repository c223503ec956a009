/** The optional-value datatype used for absent options, a missing handler and
    the error an operation may end with. */
module Wrappers {
  datatype Option<+T> = None | Some(value: T)
}
