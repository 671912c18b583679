/** The optional value used for the slots of the cache and for the result of a removal. */
module Wrappers {

  datatype Option<+T> = None | Some(value: T)
}
