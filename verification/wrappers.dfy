/** The optional-value datatype used by the decoders of the model. */
module Wrappers {

  datatype Option<+T> = None | Some(value: T)
}
