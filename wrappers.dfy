/** The optional value used for JavaScript's `undefined` and for write errors. */
module Wrappers {

  datatype Option<+T> = None | Some(value: T)
}
