/** A value that may be absent (Python's None, an empty reply). */
module Wrappers {
  datatype Option<T> = None | Some(value: T)
}
