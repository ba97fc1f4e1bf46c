/** The optional values of the JavaScript model: `undefined` (or a missing field) is `None`. */
module Wrappers {

  datatype Option<+T> = None | Some(value: T)
}
