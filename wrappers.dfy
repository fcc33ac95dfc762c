/** Small value wrappers shared by the other modules. */
module Wrappers {

  /** A value that may be absent: stands for a nullable result or an optional output. */
  datatype Option<+T> = None | Some(value: T)
}
