/** Optional values: the model's stand-in for a nil-able Go pointer. */
module Wrappers {

  datatype Option<+T> = None | Some(value: T)
}
