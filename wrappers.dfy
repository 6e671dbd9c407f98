/** The optional-value wrapper used for configuration fields and lookups. */
module Wrappers {
  datatype Option<+T> = None | Some(value: T)
}
