/** The optional value used for lookups that may fail and for "no next holder". */
module Wrappers {

  datatype Option<+T> = None | Some(value: T)

}
