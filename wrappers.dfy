/** Optional values, used where the model of a loop can run out of input. */
module Wrappers {

  datatype Option<+T> = None | Some(value: T)
}
