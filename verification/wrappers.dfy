/** The optional value used where pandas would produce a missing entry or NaN. */
module Wrappers {

  datatype Option<+T> = None | Some(value: T)
}
