/** The optional value used where the source reads a `null` or `undefined`. */
module Wrappers {

  datatype Option<T> = None | Some(value: T)
}
