/** The optional value used across the model wherever Python has
    "a value or None". */
module Wrappers {

  datatype Option<+T> = None | Some(value: T)
}
