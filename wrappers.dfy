/** The optional value used for the calculator's fallible oracles and lookups. */
module Wrappers {
  datatype Option<+T> = None | Some(value: T)
}
