/** The optional value used for the source's nullable state (`User | null`, `string | null`). */
module Wrappers {
  datatype Option<+T> = None | Some(value: T)
}
