/** The optional-value shape used wherever the Go code returns "value, ok" or a nil pointer. */
module Wrappers {

  datatype Option<+T> = None | Some(value: T)
}
