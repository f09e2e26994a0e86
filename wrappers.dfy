/** The optional value the handlers use for Python's `None`. */
module Wrappers {

  datatype Option<+T> = None | Some(value: T)
}
