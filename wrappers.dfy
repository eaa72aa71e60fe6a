/** The optional value used for "a free slot, if any" and for the result of parsing. */
module Wrappers {
  datatype Option<+T> = None | Some(value: T)
}
