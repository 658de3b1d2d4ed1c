/** The optional value used for lookups and parses that may yield nothing. */
module Wrappers {
  datatype Option<+T> = None | Some(value: T)
}
