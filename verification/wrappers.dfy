/** Optional values, used for the error returns of the factories and for
    "no switch target". */
module Wrappers {
  datatype Option<T> = None | Some(value: T)
}
