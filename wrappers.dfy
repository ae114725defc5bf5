/** The optional value used wherever the program has a "may be None" result. */
module Wrappers {
  datatype Option<+T> = None | Some(value: T)
}
