/** An optional value: stands for a JavaScript property that may be undefined. */
module Wrappers {

  datatype Option<+T> = None | Some(value: T)
}
