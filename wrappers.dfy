/** Optional values, for inputs the engine may or may not supply. */
module Wrappers {
  datatype Option<T> = None | Some(value: T)
}
