/** The optional-value datatype used throughout the model. */
module Wrappers {

  /** `None` stands for an absent value; on a JavaScript value it is `undefined`. */
  datatype Option<+T> = None | Some(value: T)
}
