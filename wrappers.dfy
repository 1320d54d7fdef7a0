/** The optional value used for "no element", "no error" and "no match". */
module Wrappers {
  datatype Option<+T> = None | Some(value: T)
}
