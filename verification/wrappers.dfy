/** Option, the wrapper the model uses for absent values. */
module Wrappers {
  datatype Option<T> = None | Some(value: T)
}
