/** Small helper datatypes shared by the model. */
module Wrappers {

  /** A value that may be absent (JavaScript's `null`/`undefined` where the
      source distinguishes presence from absence). */
  datatype Option<+T> = None | Some(value: T)
}
