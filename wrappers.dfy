/** Optional values: an absent emission, an absent error, a failed parse. */
module Wrappers {

  datatype Option<+T> = None | Some(value: T)
}
