/** The optional value used wherever the browser code may yield `undefined`
    or `null`, or may not reach a step at all. */
module Wrappers {

  datatype Option<+T> = None | Some(value: T)
}
