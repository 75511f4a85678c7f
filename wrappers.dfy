// Option, used wherever the source returns null or undefined (or NaN as "no value").
module Wrappers {
  datatype Option<T> = None | Some(value: T)
}
