/** The optional-value wrapper used for absent start times and for text that does not parse. */
module Wrappers {

  datatype Option<+T> = None | Some(value: T)
}
