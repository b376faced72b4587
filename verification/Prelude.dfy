/** Shared vocabulary: an optional value. */
module Prelude {
  datatype Option<+T> = None | Some(value: T)
}
