/** The optional value used wherever the system has a slot that may be unset (Python's None). */
module Wrappers {

  datatype Option<+T> = None | Some(value: T)
}
