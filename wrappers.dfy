/** Optional values: the engine's `Optional<O>` result and the phone's nullable fields. */
module Wrappers {

  datatype Option<T> = None | Some(value: T)

}
