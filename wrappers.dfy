/** The optional value used throughout the model for "found / not found" and
    "parsed / did not parse". */
module Wrappers {

  datatype Option<+T> = None | Some(value: T)
}
