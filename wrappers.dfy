/** Small failure-carrying datatypes shared by the model's modules. */
module Wrappers {

  /** A value that may be absent: a C pointer that may be NULL. */
  datatype Option<+T> = None | Some(value: T)
}
