/** Optional values, standing for the source's `string | null` fields. */
module Wrappers {
  datatype Option<+T> = None | Some(value: T)
}
