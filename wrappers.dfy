/** An optional value, used where the Java code returns null or "not found". */
module Wrappers {
  datatype Option<+T> = None | Some(value: T)
}
