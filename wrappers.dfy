/** An optional value, used where the engine holds a reference that may not be set yet. */
module Wrappers {
  datatype Option<+T> = None | Some(value: T)
}
