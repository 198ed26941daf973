/** The optional value the C code expresses with a NULL pointer. */
module Wrappers {
  datatype Option<+T> = None | Some(value: T)
}
