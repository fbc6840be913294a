// The Option type that stands for std::optional and for parses that can fail.
module Wrappers {
  datatype Option<+T> = None | Some(value: T)
}
