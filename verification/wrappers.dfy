/** Optional values, used for the nil-able pointers and error results of the relay. */
module Wrappers {

  datatype Option<+T> = None | Some(value: T)
}
