/** The optional-value datatype used for JavaScript's `undefined` fields and for parse results. */
module Wrappers {

  datatype Option<+T> = None | Some(value: T)
}
