/** The absent-or-present value used wherever the game code returns or accepts `null`. */
module Wrappers {

  datatype Option<+T> = None | Some(value: T)
}
