/** The optional value used for state that JavaScript holds as `undefined` or `null`. */
module Wrappers {

  datatype Option<+T> = None | Some(value: T)
}
