/** A value that may be absent, as Python's `None` marks it. */
module Wrappers {

  datatype Option<+T> = None | Some(value: T)
}
