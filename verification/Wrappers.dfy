/** The option type that the whole model shares. */
module Wrappers {

  datatype Option<+T> = None | Some(value: T)
}
