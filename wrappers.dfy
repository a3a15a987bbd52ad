/** Optional values: the model's stand-in for JavaScript's `null` and for `NaN` results. */
module Wrappers {

  datatype Option<+T> = None | Some(value: T)
}
