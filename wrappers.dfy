/** Optional values, shared by the presentation model and the cross-reference lookups. */
module Wrappers {

  /** `None` plays the part of Python's `None` (an unset attribute) or of a missing element. */
  datatype Option<+T> = None | Some(value: T)
}
