/** Optional values, standing for JavaScript's "value or undefined/-1" results. */
module Wrappers {

  datatype Option<+T> = None | Some(value: T)
}
