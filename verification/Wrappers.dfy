/** Optional values: what the modelled code returns or raises in place of a result. */
module Wrappers {
  datatype Option<+T> = None | Some(value: T)
}
