/** The optional-value datatype the rest of the model uses for Go's nil. */
module Wrappers {

  /** `None` plays the part of a nil pointer, a nil interface or a nil error. */
  datatype Option<+T> = None | Some(value: T)
}
