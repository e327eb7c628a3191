/** Optional values: the model's stand-in for a null reference or an absent result. */
module Wrappers {

  datatype Option<+T> = None | Some(value: T)
}
