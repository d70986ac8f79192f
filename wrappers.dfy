/** Small helper datatype shared by the other modules. */
module Wrappers {
  /** A value that may be absent: a JavaScript argument left `undefined`, or a hole in a sparse array. */
  datatype Option<+T> = None | Some(value: T)
}
