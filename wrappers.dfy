/** An optional value: an inspector array that may be unassigned, or a search that may find nothing */
module Wrappers {
  datatype Option<T> = None | Some(value: T)
}
