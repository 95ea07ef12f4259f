/** The optional value used for an inventory slot (a sword or `null`) and
    for the nullable indices of the game state. */
module Wrappers {

  datatype Option<+T> = None | Some(value: T)
}
