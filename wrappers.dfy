/** The optional value used for JavaScript's `null` and for absent values. */
module Wrappers {

  datatype Option<+T> = None | Some(value: T)
}
