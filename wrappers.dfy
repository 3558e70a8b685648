/** Small helper datatypes shared by the modules of the model. */
module Wrappers {

  /** A value that may be missing; `None` also stands for JavaScript's `undefined`. */
  datatype Option<+T> = None | Some(value: T)
}
