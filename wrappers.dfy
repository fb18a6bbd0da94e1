/** Optional values: the model's stand-in for a nullable object reference. */
module Wrappers {

  datatype Option<+T> = None | Some(value: T)
}
