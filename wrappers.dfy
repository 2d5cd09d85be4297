/** The optional value used wherever the bot or its store may have nothing to return. */
module Wrappers {
  datatype Option<+T> = None | Some(value: T)
}
