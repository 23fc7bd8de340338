/** Small helper datatypes shared by the other modules. */
module Wrappers {

  /** An optional value: a pointer that may be null, an iterator that may be `end()`. */
  datatype Option<+T> = None | Some(value: T)
}
