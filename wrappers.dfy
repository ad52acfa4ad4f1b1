/** The explicit absence that the catalog lookups return instead of `undefined`. */
module Wrappers {

  datatype Option<+T> = None | Some(value: T)
}
