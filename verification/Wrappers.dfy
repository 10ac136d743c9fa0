/** The optional value used wherever the program returns a value together with an `ok` flag. */
module Wrappers {
  datatype Option<+T> = None | Some(value: T)
}
