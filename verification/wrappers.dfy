/** A value that may be absent: JavaScript's `null`/`undefined` or `Infinity` bound. */
module Wrappers {
  datatype Option<+T> = None | Some(value: T)
}
