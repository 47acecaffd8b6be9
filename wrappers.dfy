/** Option, the model's stand-in for a Java reference that may be null. */
module Wrappers {

  datatype Option<+T> = None | Some(value: T)

  /** What a hand-written JSON reader hands back: Java's null, a value, or
      Unreadable for input on which the reader throws or whose reading is
      decided by library code outside this model. */
  datatype Read<+T> = Null | Value(value: T) | Unreadable
}
