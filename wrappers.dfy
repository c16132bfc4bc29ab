/** The Java `null` as a datatype. */
module Wrappers {

  /** A value that may be absent: models a Java reference that may be `null`. */
  datatype Option<+T> = None | Some(value: T)
}
