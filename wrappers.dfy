/** The optional value that the source expresses with Python's `None`. */
module Wrappers {
  datatype Option<+T> = None | Some(value: T)
}
