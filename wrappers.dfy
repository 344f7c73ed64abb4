/** An optional value: the model's stand-in for Python's `None` and for a missing mapping key. */
module Wrappers {

  datatype Option<+T> = None | Some(value: T)

}
