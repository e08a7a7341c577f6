/** A value that may be missing: JavaScript's `null`/`undefined` or "nothing to show". */
module Wrappers {
  datatype Option<+T> = None | Some(value: T)
}
