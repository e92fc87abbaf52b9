/** The optional value returned by a number parser: Some(v) when the text is a number. */
module Wrappers {
  datatype Option<+T> = None | Some(value: T)
}
