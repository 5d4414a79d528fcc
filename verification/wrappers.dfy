/** The optional value used wherever the bot works with Python's `None`. */
module Wrappers {

  datatype Option<+T> = None | Some(value: T)
}
