/** Small helper datatypes shared by the modules of this project. */
module Wrappers {

  /** A value that may be absent: `localStorage.getItem` returns a string or `null`. */
  datatype Option<+T> = None | Some(value: T)
}
