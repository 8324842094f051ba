/** The Option datatype used for "no reading" and "no result yet". */
module Wrappers {

  datatype Option<+T> = None | Some(value: T)
}
