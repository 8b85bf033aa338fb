/** The optional value used wherever the tracker may hold Python's `None`. */
module Wrappers {

  datatype Option<+T> = None | Some(value: T)
}
