/** The optional value returned by the decoders when a line or a token is rejected. */
module Wrappers {

  datatype Option<+T> = None | Some(value: T)
}
