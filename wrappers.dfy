/** Small helper datatypes shared by the other modules. */
module Wrappers {

  /** A value that may be absent (`undefined` / `null` in the widget). */
  datatype Option<+T> = None | Some(value: T)
}
