/** The optional value used by the parsers that invert the style strings. */
module Wrappers {
  datatype Option<+T> = None | Some(value: T)
}
