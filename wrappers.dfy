/** The optional value used where the Java code returns null or finds nothing. */
module Wrappers {
  datatype Option<+T> = None | Some(value: T)
}
