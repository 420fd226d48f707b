/** Optional values, used for the JavaScript `null`/`undefined` states of the components. */
module Wrappers {
  datatype Option<+T> = None | Some(value: T)
}
