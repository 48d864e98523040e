/** Optional values: the model's stand-in for C# `null` and Python `None`. */
module Wrappers {

  datatype Option<+T> = None | Some(value: T)
}
