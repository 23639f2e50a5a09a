/** Optional values, shared by the other modules. */
module Wrappers {

  /** A value that may be missing: a property read that finds no own property. */
  datatype Option<+T> = None | Some(value: T)
}
