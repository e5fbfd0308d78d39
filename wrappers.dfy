/** The optional-value type used for JSON fields that may be absent and for results that may be missing. */
module Wrappers {
  datatype Option<+T> = None | Some(value: T)
}
