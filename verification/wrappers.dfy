/** The optional value used for Python's `None` results and for an index
    that raises `IndexError`. */
module Wrappers {

  datatype Option<+T> = None | Some(value: T)
}
