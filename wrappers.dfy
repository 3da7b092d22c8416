/** The nullable reference of the source (a paddle's touch may be null). */
module Wrappers {
  datatype Option<+T> = None | Some(value: T)
}
