/** Small shared vocabulary: an optional value, for request fields that may be absent and SQL columns that may be NULL. */
module Basics {

  datatype Option<+T> = None | Some(value: T)
}
