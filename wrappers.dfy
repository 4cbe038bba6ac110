/** The optional value used for results that may be absent (a failed parse, no matching band). */
module Wrappers {

  datatype Option<+T> = None | Some(value: T)
}
