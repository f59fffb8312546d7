/** Optional values, standing in for the nullable `char*` ID pointers of the node. */
module Wrappers {

  /** `None` is a null pointer, `Some(s)` a pointer to the string `s`. */
  datatype Option<+T> = None | Some(value: T)
}
