/** The optional value returned by lookups that may miss (JavaScript's `undefined`). */
module Wrappers {
  datatype Option<+T> = None | Some(value: T)
}
