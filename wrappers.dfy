/** The optional value used where the source has `undefined`, a missing row or `NaN`. */
module Wrappers {

  datatype Option<+T> = None | Some(value: T)
}
