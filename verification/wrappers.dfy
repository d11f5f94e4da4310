/** The Python `None`-or-value pattern used throughout the chat application and the bot. */
module Wrappers {

  datatype Option<+T> = None | Some(value: T)

}
