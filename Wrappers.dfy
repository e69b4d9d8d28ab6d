/** The optional value used for the persisted high score, which may be absent. */
module Wrappers {

  datatype Option<+T> = None | Some(value: T)
}
