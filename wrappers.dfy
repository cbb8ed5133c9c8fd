/** Optional values: a missing subscription, a parse that produced NaN, a `find` that matched nothing. */
module Wrappers {

  datatype Option<+T> = None | Some(value: T)
}
