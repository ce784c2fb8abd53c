/** An optional value: stands for the source's `null`/`undefined` slots. */
module Wrappers {

  datatype Option<+T> = None | Some(value: T)
}
