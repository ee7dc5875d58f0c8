/** A value that may be missing: Python's `None`, Kotlin's `null`. */
module Wrappers {
  datatype Option<T> = None | Some(value: T)
}
