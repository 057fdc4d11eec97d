/** Optional values, standing for the C# `null` that the source returns for "not found". */
module Wrappers {
  datatype Option<+T> = None | Some(value: T)
}
