/** The optional-value datatype used throughout the model. */
module Wrappers {

  /** `None` stands for C#'s `null`, or for "nothing chosen". */
  datatype Option<+T> = None | Some(value: T)
}
