/** A value that may be absent: Java's nullable references and "no result" returns. */
module Wrappers {
  datatype Option<T> = None | Some(value: T)
}
