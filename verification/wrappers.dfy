/** The optional value used where the source has `undefined` or a null reference. */
module Wrappers {
  datatype Option<+T> = None | Some(value: T)
}
