/** Optional values: the model's stand-in for a PHP property or argument that may be null. */
module Wrappers {

  datatype Option<+T> = None | Some(value: T)
}
