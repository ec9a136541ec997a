// Optional values: the source's std::optional, and its "no result" null pointers.
module Wrappers {
  datatype Option<+T> = None | Some(value: T)
}
