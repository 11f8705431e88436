/** Shared helper types. */
module Wrappers {

  /** A value that may be missing: JavaScript's `null`/`undefined` on one side, a value on the other. */
  datatype Option<T> = None | Some(value: T)
}
