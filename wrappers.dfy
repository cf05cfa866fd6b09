/** Stand-in for Java's nullable references in value positions. */
module Wrappers {
  datatype Option<+T> = None | Some(value: T)
}
