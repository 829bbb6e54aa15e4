/** The optional value used for the game's nullable state (`number | null`, `string | null`). */
module Wrappers {
  datatype Option<+T> = None | Some(value: T)
}
