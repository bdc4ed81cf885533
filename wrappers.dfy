/** Optional values, used where the bot's Python code returns None or a value. */
module Wrappers {

  datatype Option<+T> = None | Some(value: T)
}
