/** The optional value used where the game has "nothing" as an answer. */
module Wrappers {
  datatype Option<+T> = None | Some(value: T)
}
