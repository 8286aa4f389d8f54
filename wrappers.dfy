/** The optional-value wrapper used by the login model. */
module Wrappers {
  datatype Option<+T> = None | Some(value: T)
}
