/** The optional value used for JavaScript's `null` (no logged-in user, no image). */
module Wrappers {
  datatype Option<+T> = None | Some(value: T)
}
