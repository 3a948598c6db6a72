/** Small failure-carrying types shared by the other modules. */
module Wrappers {

  /** An optional value: a fallible conversion returns `None` on an unknown input. */
  datatype Option<T> = None | Some(value: T)
}
