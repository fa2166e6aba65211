/** The optional value used for Python's `None` results and failed lookups. */
module Wrappers {
  datatype Option<T> = None | Some(value: T)
}
