/** The optional value used wherever the player's JavaScript yields `undefined`. */
module Wrappers {

  datatype Option<+T> = None | Some(value: T)
}
