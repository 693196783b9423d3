/** The optional-value datatype used for the alias part of a link and for the divider option. */
module Wrappers {
  datatype Option<+T> = None | Some(value: T)
}
