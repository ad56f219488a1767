/** The optional-value datatype used for a failure's cause and message. */
module Wrappers {

  /** `None` stands for a Java `null` reference. */
  datatype Option<+T> = None | Some(value: T)
}
