/** Option, for values the JavaScript code may find missing (`null`, `undefined`). */
module Wrappers {

  datatype Option<+T> = None | Some(value: T)
}
