/** Optional values: the `dict.get` lookups and parsers below return one. */
module Wrappers {
  datatype Option<+T> = None | Some(value: T)
}
