/** The optional value that JavaScript spells `undefined` / `null`. */
module Wrappers {

  datatype Option<+T> = None | Some(value: T)
}
