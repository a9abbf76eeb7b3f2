/** The optional value used for partial decoders and framing checks. */
module Wrappers {

  datatype Option<T> = None | Some(value: T)
}
