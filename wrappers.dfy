/** A value that may be absent: a JSON key that was not sent, a nullable column. */
module Wrappers {
  datatype Option<+T> = None | Some(value: T)
}
