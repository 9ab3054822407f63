/** The conventional optional-value datatype, used for decoders that either
    recognise a word and return its fields, or do not. */
module Wrappers {

  datatype Option<+T> = None | Some(value: T)
}
