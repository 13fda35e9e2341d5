/** The optional value used wherever the source reads a possibly `undefined` property. */
module Wrappers {

  datatype Option<+T> = None | Some(value: T)
}
