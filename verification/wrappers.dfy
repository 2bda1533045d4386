/** The optional value used for an editor that may be absent and for a parse that may fail. */
module Wrappers {
  datatype Option<+T> = None | Some(value: T)
}
