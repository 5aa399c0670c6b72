/** The optional value used throughout the model (a DOM lookup that may find nothing,
    a JSON field that may be missing). */
module Wrappers {
  datatype Option<+T> = None | Some(value: T)
}
