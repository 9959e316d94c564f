/** The optional value used throughout the model: SQL NULL, a missing
    JavaScript property, or a parse that did not succeed. */
module Wrappers {

  datatype Option<+T> = None | Some(value: T)
}
