/** Optional values: the model's stand-in for a Java reference that may be null. */
module Wrappers {

  /** `None` is a null reference, `Some(v)` a reference to `v`. */
  datatype Option<+T> = None | Some(value: T)
}
