/** The optional value used wherever JavaScript code yields `null`, `undefined`
    or a rejected promise instead of a value. */
module Wrappers {

  datatype Option<+T> = None | Some(value: T)
}
