/** The usual optional-value datatype, used where a decomposition can fail. */
module Wrappers {

  datatype Option<+T> = None | Some(value: T)
}
