/** The optional-value type used for lookups that may find nothing and for
    decodings that may fail. */
module Wrappers {

  datatype Option<+T> = None | Some(value: T)
}
