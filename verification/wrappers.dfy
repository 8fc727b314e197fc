/** Optional values: an absent JSON field, a failed lookup, a probe that found no price. */
module Wrappers {
  datatype Option<+T> = None | Some(value: T)
}
