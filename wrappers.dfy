/** The optional value used for the attributes the component leaves unset (Python's `None`). */
module Wrappers {

  datatype Option<+T> = None | Some(value: T)
}
