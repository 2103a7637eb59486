/** The optional value every partial operation of the model returns. */
module Wrappers {

  /** `None` stands for the source's `None`, or for an operation that raised. */
  datatype Option<+T> = None | Some(value: T)
}
