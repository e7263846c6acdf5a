/** Option, the stand-in for JavaScript's `null` results and thrown parse errors. */
module Wrappers {

  datatype Option<+T> = None | Some(value: T)
}
